/**
 * The SSH proxy's revocation protocol as interleaved steps. Each step is one
 * lock-protected region, one atomic operation, or one load of the snapshot
 * together with the decision taken on the value loaded. Sessions, their
 * channels, connection aborts, the backend loop and the control timers all
 * advance independently; lookups whose outcome does not matter to revocation
 * (which login, which route, which timer fires) are step parameters.
 */
module SshProtocol {
  import opened Common
  import opened SshRouting

  const MAX_CHILD_TASKS_PER_CONNECTION: nat := 64

  /** Child ids are 64-bit and are never reused: at the last one registration is refused. */
  const LAST_CHILD_ID: nat := 0xFFFF_FFFF_FFFF_FFFF

  // ---- One connection ----

  datatype Actor = Backend | Timer | Other

  /**
   * `abort` of a connection: swap the revoked flag, abort the session, take the
   * child registry under its lock, abort every handle taken.
   */
  datatype Abort =
    | Alive
    | Swapped(owner: Actor)
    | SessionDown(owner: Actor)
    | Draining(owner: Actor, handles: set<nat>)
    | Down

  datatype Identity = Identity(key: Key, userId: string, pinned: Option<Route>)

  /** `Writing` stores the identity field by field; `Open` remembers the version `auth_succeeded` checked against. */
  datatype Phase =
    | Connected
    | Writing(written: nat, identity: Identity)
    | Accepted
    | Open(version: nat)
    | Ended

  /** A child task of the session, from its reservation to its cleanup. */
  datatype Bridge =
    | Reserved(route: Route)
    | Bound(route: Route)
    | UserChecked(route: Route)
    | Passed(route: Route, version: nat)
    | Running(route: Route, version: nat)
    | Leaving
    | Gone
  {
    /** Past the re-check and not finished. */
    predicate Live() { Passed? || Running? }

    predicate HasRoute() { Bound? || UserChecked? || Live() }

    /** Registered with the connection and not cleaned up. */
    predicate Registered() { Reserved? || HasRoute() }
  }

  /**
   * `children` are the ids in the abort registry, `aborted` the ids whose handle
   * was aborted, `doomed` the ids whose route entry revalidation removed.
   */
  datatype Conn = Conn(
    registered: bool, abort: Abort, phase: Phase,
    login: bool, key: Option<Key>, userId: Option<string>, pinned: Option<Route>,
    resolved: Option<Route>, nextChild: nat,
    children: set<nat>, aborted: set<nat>, doomed: set<nat>, routes: map<nat, Route>, bridges: map<nat, Bridge>)
  {
    predicate Revoked() { !abort.Alive? }
  }

  const NEW_CONNECTION :=
    Conn(true, Alive, Connected, false, None, None, None, None, 1, {}, {}, {}, map[], map[])

  predicate AuthorizationMatches(c: Conn, snapshot: Option<Snapshot>) {
    if !c.login then true
    else if snapshot.None? || c.key.None? || c.userId.None? then false
    else
      && UserMatches(c.key.value, c.userId.value, snapshot.value)
      && (c.pinned.Some? ==> c.pinned.value.userId == c.userId.value && StillAuthorized(c.pinned.value, snapshot.value))
  }

  predicate UserMatches(key: Key, userId: string, snapshot: Snapshot) {
    var user := FindActiveUserByPublicKey(snapshot, key);
    user.Some? && user.value.id == userId
  }

  /** `set_authenticated`, one field at a time in the order it writes them. */
  function WriteField(c: Conn): Conn
    requires c.phase.Writing?
  {
    var Writing(written, identity) := c.phase;
    if written == 0 then c.(login := true, phase := Writing(1, identity))
    else if written == 1 then c.(key := Some(identity.key), phase := Writing(2, identity))
    else if written == 2 then c.(userId := Some(identity.userId), phase := Writing(3, identity))
    else c.(pinned := identity.pinned, phase := Accepted)
  }

  /** `register_child_abort`: the revoked flag is read under the registry lock. */
  function RegisterChild(c: Conn): (Conn, Option<nat>) {
    if c.Revoked() || |c.children| >= MAX_CHILD_TASKS_PER_CONNECTION || c.nextChild >= LAST_CHILD_ID then (c, None)
    else (c.(nextChild := c.nextChild + 1, children := c.children + {c.nextChild}), Some(c.nextChild))
  }

  function SetBridge(c: Conn, id: nat, b: Bridge): Conn {
    c.(bridges := c.bridges[id := b])
  }

  function BindRoute(c: Conn, id: nat, route: Route): Conn {
    SetBridge(c, id, Bound(route)).(routes := c.routes[id := route])
  }

  function DropHandle(c: Conn, id: nat): Conn {
    SetBridge(c, id, Leaving).(children := c.children - {id})
  }

  function DropRoute(c: Conn, id: nat): Conn {
    SetBridge(c, id, Gone).(routes := c.routes - {id})
  }

  /** `std::mem::take` of the child registry. */
  function TakeChildren(c: Conn, owner: Actor): Conn {
    c.(abort := Draining(owner, c.children), children := {})
  }

  function AbortTaken(c: Conn, id: nat): Conn
    requires c.abort.Draining?
  {
    c.(abort := c.abort.(handles := c.abort.handles - {id}), aborted := c.aborted + {id})
  }

  function RevokedRoutes(c: Conn, snapshot: Snapshot): set<nat> {
    set id | id in c.routes && !StillAuthorized(c.routes[id], snapshot)
  }

  function RemoveRoute(c: Conn, id: nat): Conn {
    c.(routes := c.routes - {id}, doomed := c.doomed + {id})
  }

  function AbortChild(c: Conn, id: nat): Conn {
    if id in c.children then c.(children := c.children - {id}, aborted := c.aborted + {id}) else c
  }

  // ---- The whole proxy ----

  /**
   * Where a control task is. `target` is the version its revalidation pass
   * compares with. Only the backend loop ever runs a pass that scans bridges.
   */
  datatype Pass =
    | Idle
    | Stored
    | Expiring
    | Listing(target: nat)
    | Inspecting(target: nat, todo: set<nat>, bad: set<nat>)
    | Aborting(target: nat, bad: set<nat>)
    | Waiting(target: nat, bad: set<nat>, conn: nat)
    | ListingBridges(target: nat)
    | Scanning(target: nat, todo: set<nat>)
    | Killing(target: nat, todo: set<nat>, conn: nat, ids: set<nat>)
    | KillingHandle(target: nat, todo: set<nat>, conn: nat, ids: set<nat>, id: nat)
  {
    predicate HasTarget() { !Idle? && !Stored? && !Expiring? }
  }

  /** `history[v]` is what the store held after its v-th write; `finished` the targets of completed passes. */
  datatype State = State(
    history: seq<Option<Snapshot>>, conns: map<nat, Conn>, backend: Pass, timer: Pass, finished: set<nat>)

  const INITIAL := State([None], map[], Idle, Idle, {})

  function Version(s: State): int { |s.history| - 1 }

  function PassOf(s: State, a: Actor): Pass {
    if a.Backend? then s.backend else if a.Timer? then s.timer else Idle
  }

  function SetPass(s: State, a: Actor, p: Pass): State {
    if a.Backend? then s.(backend := p) else if a.Timer? then s.(timer := p) else s
  }

  function SetConn(s: State, c: nat, conn: Conn): State {
    s.(conns := s.conns[c := conn])
  }

  function Finish(s: State, a: Actor, target: nat): State {
    SetPass(s, a, Idle).(finished := s.finished + {target})
  }

  datatype AuthStep =
    | StartAuth(identity: Identity)
    | WriteAuth
    | AcceptPaused
    | AuthSucceeded
    | RefuseSession
    | Resolve(route: Route)

  datatype ChannelStep =
    | Reserve
    | Bind(id: nat)
    | CheckUser(id: nat)
    | CheckRoute(id: nat)
    | Spawn(id: nat)
    | LeaveHandle(id: nat)
    | LeaveRoute(id: nat)

  datatype TeardownStep =
    | StartAbort
    | AbortSession
    | Drain
    | AbortHandle(id: nat)
    | EndAbort
    | Unregister

  datatype WriteStep =
    | Install(snapshot: Snapshot)
    | LoadTarget
    | Expire
    | Revoke(a: Actor)

  datatype PassStep =
    | ListConnections
    | Inspect(c: nat)
    | EndInspect
    | AbortNext(c: nat)
    | AbortWaited
    | EndAborting

  datatype ScanStep =
    | ListBridges
    | ScanConn(c: nat)
    | KillRoute(id: nat)
    | KillHandle
    | EndKilling
    | EndScan

  datatype Step =
    | Register(c: nat)
    | Auth(c: nat, auth: AuthStep)
    | Channel(c: nat, channel: ChannelStep)
    | Teardown(c: nat, teardown: TeardownStep)
    | Write(write: WriteStep)
    | Revalidate(a: Actor, pass: PassStep)
    | Scan(scan: ScanStep)

  // ---- Authentication ----

  predicate AuthEnabled(conn: Conn, p: AuthStep) {
    match p
    case StartAuth(_) => conn.phase.Connected?
    case WriteAuth => conn.phase.Writing?
    case AcceptPaused => conn.phase.Connected?
    case AuthSucceeded => conn.phase.Accepted?
    case RefuseSession => conn.phase.Accepted?
    case Resolve(route) => conn.phase.Open? && conn.key.Some? && conn.userId == Some(route.userId)
  }

  /**
   * A session accepted while admission is paused stores no identity; its
   * `auth_succeeded` finds nothing pinned to compare. Which of the user's routes
   * a target resolves to is left open: nothing below relies on that first answer.
   */
  function AuthAfter(conn: Conn, p: AuthStep, current: Option<Snapshot>, version: nat): Conn
    requires AuthEnabled(conn, p)
  {
    match p
    case StartAuth(identity) => conn.(phase := Writing(0, identity))
    case WriteAuth => WriteField(conn)
    case AcceptPaused => conn.(phase := Accepted)
    case AuthSucceeded => conn.(phase := if AuthorizationMatches(conn, current) then Open(version) else Ended)
    case RefuseSession => conn.(phase := Ended)
    case Resolve(route) => conn.(resolved := Some(route))
  }

  // ---- Channels ----

  predicate HasBridge(conn: Conn, id: nat, p: ChannelStep) {
    && id in conn.bridges
    && match p
       case Bind(_) => conn.bridges[id].Reserved?
       case CheckUser(_) => conn.bridges[id].Bound? && conn.key.Some? && conn.userId.Some?
       case CheckRoute(_) => conn.bridges[id].UserChecked?
       case Spawn(_) => conn.bridges[id].Passed?
       case LeaveHandle(_) => conn.bridges[id].Registered()
       case LeaveRoute(_) => conn.bridges[id].Leaving?
       case Reserve => false
  }

  predicate ChannelEnabled(conn: Conn, p: ChannelStep) {
    if p.Reserve? then conn.resolved.Some? else HasBridge(conn, p.id, p)
  }

  /**
   * A re-check that fails leads to the permit's drop. An aborted session's code
   * may still run up to its next await, so only the registration asks whether
   * the connection was revoked.
   */
  function ChannelAfter(conn: Conn, p: ChannelStep, current: Option<Snapshot>, version: nat): Conn
    requires ChannelEnabled(conn, p)
  {
    match p
    case Reserve =>
      var (registered, id) := RegisterChild(conn.(resolved := None));
      if id.None? then registered else SetBridge(registered, id.value, Reserved(conn.resolved.value))
    case Bind(id) => BindRoute(conn, id, conn.bridges[id].route)
    case CheckUser(id) =>
      if current.Some? && UserMatches(conn.key.value, conn.userId.value, current.value)
      then SetBridge(conn, id, UserChecked(conn.bridges[id].route))
      else DropHandle(conn, id)
    case CheckRoute(id) =>
      if current.Some? && StillAuthorized(conn.bridges[id].route, current.value)
      then SetBridge(conn, id, Passed(conn.bridges[id].route, version))
      else DropHandle(conn, id)
    case Spawn(id) => SetBridge(conn, id, Running(conn.bridges[id].route, conn.bridges[id].version))
    case LeaveHandle(id) => DropHandle(conn, id)
    case LeaveRoute(id) => DropRoute(conn, id)
  }

  // ---- Teardown ----

  predicate TeardownEnabled(conn: Conn, p: TeardownStep) {
    match p
    case StartAbort => conn.abort.Alive?
    case AbortSession => conn.abort.Swapped?
    case Drain => conn.abort.SessionDown?
    case AbortHandle(id) => conn.abort.Draining? && id in conn.abort.handles
    case EndAbort => conn.abort.Draining? && conn.abort.handles == {}
    case Unregister => conn.registered
  }

  function TeardownAfter(conn: Conn, p: TeardownStep): Conn
    requires TeardownEnabled(conn, p)
  {
    match p
    case StartAbort => conn.(abort := Swapped(Other))
    case AbortSession => conn.(abort := SessionDown(conn.abort.owner))
    case Drain => TakeChildren(conn, conn.abort.owner)
    case AbortHandle(id) => AbortTaken(conn, id)
    case EndAbort => conn.(abort := Down)
    case Unregister => conn.(registered := false)
  }

  // ---- Store writes ----

  predicate WriteEnabled(s: State, p: WriteStep) {
    match p
    case Install(_) => s.backend.Idle?
    case LoadTarget => s.backend.Stored? && s.history != []
    case Expire => s.timer.Idle?
    case Revoke(a) => (a.Backend? && s.backend.Idle?) || (a.Timer? && (s.timer.Idle? || s.timer.Expiring?))
  }

  /** An install loads its target afterwards; a revocation compares with the nothing it just stored. */
  function WriteAfter(s: State, p: WriteStep): State
    requires WriteEnabled(s, p)
  {
    match p
    case Install(snapshot) => s.(history := s.history + [Some(snapshot)], backend := Stored)
    case LoadTarget => s.(backend := Listing(|s.history| - 1))
    case Expire => s.(history := s.history + [None], timer := Expiring)
    case Revoke(a) => SetPass(s.(history := s.history + [None]), a, Listing(|s.history|))
  }

  // ---- Revalidating connections ----

  function RegisteredConns(s: State): set<nat> {
    set c | c in s.conns && s.conns[c].registered
  }

  /**
   * `unregister_connection` keeps the list of connections locked until its abort
   * has returned, so whoever gets to list finds every connection that left revoked.
   */
  predicate ListUnlocked(s: State) {
    forall c :: c in s.conns && !s.conns[c].registered ==> s.conns[c].Revoked()
  }

  predicate PassEnabled(s: State, a: Actor, p: PassStep) {
    var pass := PassOf(s, a);
    && !a.Other?
    && match p
       case ListConnections => pass.Listing? && ListUnlocked(s)
       case Inspect(c) => pass.Inspecting? && c in pass.todo && c in s.conns && pass.target < |s.history|
       case EndInspect => pass.Inspecting? && pass.todo == {}
       case AbortNext(c) => pass.Aborting? && c in pass.bad && c in s.conns
       case AbortWaited => pass.Waiting? && pass.conn in s.conns && s.conns[pass.conn].abort.Down?
       case EndAborting => pass.Aborting? && pass.bad == {} && pass.target < |s.history|
  }

  function PassAfter(s: State, a: Actor, p: PassStep): State
    requires PassEnabled(s, a, p)
  {
    var pass := PassOf(s, a);
    match p
    case ListConnections => SetPass(s, a, Inspecting(pass.target, RegisteredConns(s), {}))
    case Inspect(c) =>
      var bad := if AuthorizationMatches(s.conns[c], s.history[pass.target]) then pass.bad else pass.bad + {c};
      SetPass(s, a, Inspecting(pass.target, pass.todo - {c}, bad))
    case EndInspect => SetPass(s, a, Aborting(pass.target, pass.bad))
    case AbortNext(c) =>
      var conn := s.conns[c];
      if conn.Revoked() then SetPass(s, a, Aborting(pass.target, pass.bad - {c}))
      else SetConn(SetPass(s, a, Waiting(pass.target, pass.bad - {c}, c)), c, conn.(abort := Swapped(a)))
    case AbortWaited => SetPass(s, a, Aborting(pass.target, pass.bad))
    case EndAborting =>
      if a.Backend? && s.history[pass.target].Some?
      then SetPass(s, a, ListingBridges(pass.target))
      else Finish(s, a, pass.target)
  }

  // ---- Revalidating bridges ----

  predicate ScanEnabled(s: State, p: ScanStep) {
    match p
    case ListBridges => s.backend.ListingBridges? && ListUnlocked(s)
    case ScanConn(c) =>
      && s.backend.Scanning? && c in s.backend.todo && c in s.conns
      && s.backend.target < |s.history| && s.history[s.backend.target].Some?
    case KillRoute(id) => s.backend.Killing? && id in s.backend.ids && s.backend.conn in s.conns
    case KillHandle => s.backend.KillingHandle? && s.backend.conn in s.conns
    case EndKilling => s.backend.Killing? && s.backend.ids == {}
    case EndScan => s.backend.Scanning? && s.backend.todo == {}
  }

  function ScanAfter(s: State, p: ScanStep): State
    requires ScanEnabled(s, p)
  {
    match p
    case ListBridges => s.(backend := Scanning(s.backend.target, RegisteredConns(s)))
    case ScanConn(c) =>
      var Scanning(target, todo) := s.backend;
      s.(backend := Killing(target, todo - {c}, c, RevokedRoutes(s.conns[c], s.history[target].value)))
    case KillRoute(id) =>
      var Killing(target, todo, c, ids) := s.backend;
      SetConn(s.(backend := KillingHandle(target, todo, c, ids - {id}, id)), c, RemoveRoute(s.conns[c], id))
    case KillHandle =>
      var KillingHandle(target, todo, c, ids, id) := s.backend;
      SetConn(s.(backend := Killing(target, todo, c, ids)), c, AbortChild(s.conns[c], id))
    case EndKilling => s.(backend := Scanning(s.backend.target, s.backend.todo))
    case EndScan => Finish(s, Backend, s.backend.target)
  }

  // ---- Runs ----

  predicate Enabled(s: State, p: Step) {
    && s.history != []
    && match p
       case Register(c) => c !in s.conns
       case Auth(c, auth) => c in s.conns && AuthEnabled(s.conns[c], auth)
       case Channel(c, channel) => c in s.conns && ChannelEnabled(s.conns[c], channel)
       case Teardown(c, teardown) => c in s.conns && TeardownEnabled(s.conns[c], teardown)
       case Write(write) => WriteEnabled(s, write)
       case Revalidate(a, pass) => PassEnabled(s, a, pass)
       case Scan(scan) => ScanEnabled(s, scan)
  }

  function After(s: State, p: Step): State
    requires Enabled(s, p)
  {
    var v := |s.history| - 1;
    match p
    case Register(c) => SetConn(s, c, NEW_CONNECTION)
    case Auth(c, auth) => SetConn(s, c, AuthAfter(s.conns[c], auth, s.history[v], v))
    case Channel(c, channel) => SetConn(s, c, ChannelAfter(s.conns[c], channel, s.history[v], v))
    case Teardown(c, teardown) => SetConn(s, c, TeardownAfter(s.conns[c], teardown))
    case Write(write) => WriteAfter(s, write)
    case Revalidate(a, pass) => PassAfter(s, a, pass)
    case Scan(scan) => ScanAfter(s, scan)
  }

  /** The state after `steps`, taken one after the other from the start; `None` when one of them could not happen. */
  function Run(steps: seq<Step>): Option<State> {
    if steps == [] then Some(INITIAL)
    else
      var before := Run(steps[..|steps| - 1]);
      if before.Some? && Enabled(before.value, steps[|steps| - 1])
      then Some(After(before.value, steps[|steps| - 1]))
      else None
  }
}
