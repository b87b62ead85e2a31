/** Lease lifetime of a snapshot, from wall-clock readings (`clock.rs`). */
module SnapshotClock {
  import opened Common

  const MAX_U64: nat := 0xFFFF_FFFF_FFFF_FFFF
  const MAX_SNAPSHOT_CLOCK_SKEW_MS: nat := 30_000

  /** How long a snapshot valid until a wall-clock time may still be used; sums that leave 64 bits are refused. */
  function AbsoluteSnapshotRemaining(validUntilMs: nat, staleAfterMs: nat, wallNowMs: nat): (r: Result<nat>)
    ensures r.Ok? <==>
      && wallNowMs + staleAfterMs + MAX_SNAPSHOT_CLOCK_SKEW_MS <= MAX_U64
      && wallNowMs < validUntilMs <= wallNowMs + staleAfterMs + MAX_SNAPSHOT_CLOCK_SKEW_MS
    ensures r.Ok? ==> wallNowMs + r.value == validUntilMs && 0 < r.value <= staleAfterMs + MAX_SNAPSHOT_CLOCK_SKEW_MS
  {
    if wallNowMs + staleAfterMs > MAX_U64 then Err("absolute lease overflow")
    else if wallNowMs + staleAfterMs + MAX_SNAPSHOT_CLOCK_SKEW_MS > MAX_U64 then Err("absolute lease overflow")
    else if validUntilMs > wallNowMs + staleAfterMs + MAX_SNAPSHOT_CLOCK_SKEW_MS then Err("validUntil is too far in the future")
    else if validUntilMs <= wallNowMs then Err("absolute lease already expired")
    else Ok(validUntilMs - wallNowMs)
  }
}

/**
 * The HTTP proxy's leased snapshot store. `Arc::ptr_eq` on incarnations and
 * control epochs is equality of allocation numbers that are never reused.
 * Every call is one step with one clock reading (`Event.at`).
 */
module HttpSnapshot {
  import opened Common
  import Clock = SnapshotClock

  const MAX_SNAPSHOT_STALE_AFTER_MS: nat := 300_000

  datatype Route = Route(
    bindingId: string, hostname: string, domainPoolId: string, routedIp: string, targetPort: nat,
    ownerId: string, containerId: string, containerName: string, instanceName: string, status: string)
  {
    /** The container's name and status are labels: they grant nothing. */
    predicate SameAuthority(other: Route) {
      && bindingId == other.bindingId
      && hostname == other.hostname
      && domainPoolId == other.domainPoolId
      && ownerId == other.ownerId
      && containerId == other.containerId
      && instanceName == other.instanceName
      && routedIp == other.routedIp
      && targetPort == other.targetPort
    }
  }

  /** A snapshot frame; `poolsValid` stands for every domain pool's certificate parsing and matching its key. */
  datatype Received = Received(
    generation: nat, staleAfterMs: nat, validUntilMs: nat, routes: seq<Route>, poolsValid: bool)

  datatype AuthorizedRoute = AuthorizedRoute(route: Route, incarnation: nat)

  datatype Snapshot = Snapshot(generation: nat, receivedAt: int, deadline: int, routes: map<string, AuthorizedRoute>)
  {
    predicate Fresh(now: int) { now < deadline }
  }

  datatype Lease = Lease(generation: nat, deadline: int, controlEpoch: nat)

  /** `nextIncarnation` is the next unused allocation number. */
  datatype State = State(
    current: Option<Snapshot>, generationHighWater: Option<nat>, controlEpoch: nat, nextIncarnation: nat)

  const INITIAL := State(None, None, 0, 0)

  datatype Op =
    | Store(received: Received, installedAt: int, wallNowMs: nat)
    | Load
    | Expire(lease: Lease)
    | BeginControlEpoch
    | HoldAfterDisconnect(hold: nat)
    | ClearEpoch
    | AuthorizeRoute(hostname: string)
    | AuthorizationDeadline(expected: AuthorizedRoute)

  datatype Event = Event(at: int, op: Op)

  datatype Answer =
    | Refused(reason: string)
    | Ignored
    | Installed(lease: Lease)
    | Loaded(snapshot: Option<Snapshot>)
    | Expired(removed: bool)
    | Authorized(authorization: Option<AuthorizedRoute>)
    | Deadline(until: Option<int>)
    | Done

  // ---- The store's calls as functions of its state ----

  /** The received routes by hostname, each with an allocation of its own; a repeated hostname keeps its last route. */
  function FreshRoutes(routes: seq<Route>, base: nat): map<string, AuthorizedRoute> {
    if routes == [] then map[]
    else
      var last := routes[|routes| - 1];
      FreshRoutes(routes[..|routes| - 1], base)[last.hostname := AuthorizedRoute(last, base + |routes| - 1)]
  }

  function FromReceived(received: Received, at: int, wallNowMs: nat, base: nat): Result<Snapshot> {
    if received.staleAfterMs == 0 || received.staleAfterMs > MAX_SNAPSHOT_STALE_AFTER_MS then Err("invalid staleAfterMs")
    else
      match Clock.AbsoluteSnapshotRemaining(received.validUntilMs, received.staleAfterMs, wallNowMs)
      case Err(error) => Err(error)
      case Ok(remaining) =>
        if !received.poolsValid then Err("invalid domain pool")
        else Ok(Snapshot(received.generation, at, at + remaining, FreshRoutes(received.routes, base)))
  }

  function InheritedRoutes(routes: map<string, AuthorizedRoute>, previous: map<string, AuthorizedRoute>): map<string, AuthorizedRoute> {
    map h | h in routes ::
      if h in previous && previous[h].route.SameAuthority(routes[h].route)
      then routes[h].(incarnation := previous[h].incarnation)
      else routes[h]
  }

  function DropExpired(s: State, now: int): State {
    if s.current.Some? && !s.current.value.Fresh(now) then s.(current := None) else s
  }

  function StoreStep(s: State, received: Received, at: int, installedAt: int, wallNowMs: nat): (State, Answer) {
    match FromReceived(received, at, wallNowMs, s.nextIncarnation)
    case Err(error) => (s, Refused(error))
    case Ok(routing) =>
      if !routing.Fresh(installedAt) then (s, Refused("lease expired before installation"))
      else
        var s1 := DropExpired(s, at);
        if s1.generationHighWater.Some? && s1.generationHighWater.value >= received.generation then (s1, Ignored)
        else
          var routes := if s1.current.Some? then InheritedRoutes(routing.routes, s1.current.value.routes) else routing.routes;
          (s1.(current := Some(routing.(routes := routes)),
               generationHighWater := Some(received.generation),
               nextIncarnation := s.nextIncarnation + |received.routes|),
           Installed(Lease(received.generation, routing.deadline, s1.controlEpoch)))
  }

  predicate ShouldExpire(s: State, lease: Lease, now: int) {
    && s.current.Some?
    && s.controlEpoch == lease.controlEpoch
    && s.current.value.generation == lease.generation
    && s.current.value.deadline == lease.deadline
    && !s.current.value.Fresh(now)
  }

  function ClearStep(s: State): State {
    s.(current := None, generationHighWater := None, controlEpoch := s.controlEpoch + 1)
  }

  function HoldStep(s: State, now: int, hold: nat): State {
    if hold == 0 then ClearStep(s)
    else if s.current.Some? && now + hold < s.current.value.deadline
    then s.(current := Some(s.current.value.(deadline := now + hold)))
    else s
  }

  function Lookup(s: State, hostname: string): Option<AuthorizedRoute> {
    if s.current.Some? && hostname in s.current.value.routes then Some(s.current.value.routes[hostname]) else None
  }

  function CurrentDeadline(s: State, expected: AuthorizedRoute): Option<int> {
    if && s.current.Some?
       && expected.route.hostname in s.current.value.routes
       && s.current.value.routes[expected.route.hostname].incarnation == expected.incarnation
    then Some(s.current.value.deadline)
    else None
  }

  function Step(s: State, e: Event): (State, Answer) {
    match e.op
    case Store(received, installedAt, wallNowMs) => StoreStep(s, received, e.at, installedAt, wallNowMs)
    case Load => var s1 := DropExpired(s, e.at); (s1, Loaded(s1.current))
    case Expire(lease) => if ShouldExpire(s, lease, e.at) then (s.(current := None), Expired(true)) else (s, Expired(false))
    case BeginControlEpoch => (s.(generationHighWater := None, controlEpoch := s.controlEpoch + 1), Done)
    case HoldAfterDisconnect(hold) => (HoldStep(s, e.at, hold), Done)
    case ClearEpoch => (ClearStep(s), Done)
    case AuthorizeRoute(hostname) => var s1 := DropExpired(s, e.at); (s1, Authorized(Lookup(s1, hostname)))
    case AuthorizationDeadline(expected) => var s1 := DropExpired(s, e.at); (s1, Deadline(CurrentDeadline(s1, expected)))
  }

  /** Calls take the store's lock in clock order. */
  predicate Ordered(es: seq<Event>) {
    forall i, j :: 0 <= i < j < |es| ==> es[i].at <= es[j].at
  }

  function After(es: seq<Event>): State {
    if es == [] then INITIAL else Step(After(es[..|es| - 1]), es[|es| - 1]).0
  }

  function AnswerAt(es: seq<Event>, i: nat): Answer
    requires i < |es|
  {
    Step(After(es[..i]), es[i]).1
  }
}
