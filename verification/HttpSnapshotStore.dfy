/** The store itself: fields updated under its lock, each call proved against `HttpSnapshot.Step`. */
module HttpSnapshotStore {
  import opened Common
  import opened HttpSnapshot
  import HttpLease

  /** A hostname is looked up in the previous routes and keeps its number there if nothing that grants differs. */
  method InheritIncarnations(routes: map<string, AuthorizedRoute>, previous: map<string, AuthorizedRoute>)
    returns (inherited: map<string, AuthorizedRoute>)
    ensures inherited == InheritedRoutes(routes, previous)
  {
    inherited := routes;
    var todo := routes.Keys;
    while todo != {}
      invariant todo <= routes.Keys == inherited.Keys
      invariant forall h :: h in todo ==> inherited[h] == routes[h]
      invariant forall h :: h in routes && h !in todo ==> inherited[h] == InheritedRoutes(routes, previous)[h]
      decreases |todo|
    {
      var hostname :| hostname in todo;
      todo := todo - {hostname};
      if hostname in previous && previous[hostname].route.SameAuthority(routes[hostname].route) {
        inherited := inherited[hostname := routes[hostname].(incarnation := previous[hostname].incarnation)];
      }
    }
  }

  class SnapshotStore {
    var current: Option<Snapshot>
    var generationHighWater: Option<nat>
    var controlEpoch: nat
    var nextIncarnation: nat

    ghost function View(): State
      reads this
    {
      State(current, generationHighWater, controlEpoch, nextIncarnation)
    }

    constructor ()
      ensures View() == INITIAL
    {
      current := None;
      generationHighWater := None;
      controlEpoch := 0;
      nextIncarnation := 0;
    }

    /** `installedAt` is the second clock reading, after the frame was converted. */
    method Store(received: Received, receivedAt: int, installedAt: int, wallNowMs: nat) returns (answer: Answer)
      modifies this
      ensures (View(), answer) == Step(old(View()), Event(receivedAt, Op.Store(received, installedAt, wallNowMs)))
    {
      var converted := FromReceived(received, receivedAt, wallNowMs, nextIncarnation);
      if converted.Err? {
        return Refused(converted.error);
      }
      var routing := converted.value;
      if !routing.Fresh(installedAt) {
        return Refused("lease expired before installation");
      }
      DropIfExpired(receivedAt);
      if generationHighWater.Some? && generationHighWater.value >= received.generation {
        return Ignored;
      }
      var routes := routing.routes;
      if current.Some? {
        routes := InheritIncarnations(routes, current.value.routes);
      }
      answer := Installed(Lease(received.generation, routing.deadline, controlEpoch));
      current := Some(routing.(routes := routes));
      generationHighWater := Some(received.generation);
      nextIncarnation := nextIncarnation + |received.routes|;
    }

    /** What is left is fresh or nothing, and no call that reads the clock at `now` or later can tell. */
    method DropIfExpired(now: int)
      modifies this`current
      ensures View() == DropExpired(old(View()), now)
      ensures current.Some? ==> current == old(current) && current.value.Fresh(now)
      ensures HttpLease.Alike(View(), old(View()), now)
    {
      if current.Some? && !current.value.Fresh(now) {
        current := None;
      }
    }

    method Load(now: int) returns (snapshot: Option<Snapshot>)
      modifies this
      ensures (View(), Loaded(snapshot)) == Step(old(View()), Event(now, Op.Load))
      ensures snapshot.Some? ==> now < snapshot.value.deadline
    {
      DropIfExpired(now);
      snapshot := current;
    }

    method Expire(lease: Lease, now: int) returns (removed: bool)
      modifies this
      ensures (View(), Expired(removed)) == Step(old(View()), Event(now, Op.Expire(lease)))
      ensures old(current.Some? && current.value.Fresh(now)) ==> View() == old(View())
    {
      removed := && current.Some?
                 && controlEpoch == lease.controlEpoch
                 && current.value.generation == lease.generation
                 && current.value.deadline == lease.deadline
                 && !current.value.Fresh(now);
      if removed {
        current := None;
      }
    }

    method BeginControlEpoch(now: int)
      modifies this
      ensures View() == Step(old(View()), Event(now, Op.BeginControlEpoch)).0
      ensures current == old(current) && controlEpoch != old(controlEpoch)
    {
      generationHighWater := None;
      controlEpoch := controlEpoch + 1;
    }

    method HoldAfterDisconnect(hold: nat, now: int)
      modifies this
      ensures View() == Step(old(View()), Event(now, Op.HoldAfterDisconnect(hold))).0
      ensures current.Some? ==> old(current).Some? && current.value.deadline <= old(current).value.deadline
    {
      if hold == 0 {
        ClearEpoch(now);
        return;
      }
      if current.Some? {
        var deadline := now + hold;
        if deadline < current.value.deadline {
          current := Some(current.value.(deadline := deadline));
        }
      }
    }

    method ClearEpoch(now: int)
      modifies this
      ensures View() == Step(old(View()), Event(now, Op.ClearEpoch)).0
    {
      current := None;
      generationHighWater := None;
      controlEpoch := controlEpoch + 1;
    }

    method AuthorizeRoute(hostname: string, now: int) returns (authorization: Option<AuthorizedRoute>)
      modifies this
      ensures (View(), Authorized(authorization)) == Step(old(View()), Event(now, Op.AuthorizeRoute(hostname)))
    {
      DropIfExpired(now);
      authorization := None;
      if current.Some? && hostname in current.value.routes {
        authorization := Some(current.value.routes[hostname]);
      }
    }

    method AuthorizationDeadline(expected: AuthorizedRoute, now: int) returns (deadline: Option<int>)
      modifies this
      ensures (View(), Deadline(deadline)) == Step(old(View()), Event(now, Op.AuthorizationDeadline(expected)))
    {
      DropIfExpired(now);
      deadline := None;
      if current.Some? && expected.route.hostname in current.value.routes {
        if current.value.routes[expected.route.hostname].incarnation == expected.incarnation {
          deadline := Some(current.value.deadline);
        }
      }
    }
  }
}
