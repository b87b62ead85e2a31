/**
 * The connection's own fields and the methods that change them, run without
 * interruption. Every change they make is a sequence of protocol steps.
 */
module SshConnectionState {
  import opened Common
  import opened SshRouting
  import opened SshProtocol

  /** The abort has taken the registry and still has the handles in `left` to abort. */
  ghost function Drained(c: Conn, left: set<nat>): Conn {
    c.(abort := Draining(Other, left), children := {}, aborted := c.aborted + (c.children - left))
  }

  lemma DrainOne(c: Conn, left: set<nat>, id: nat)
    requires left <= c.children && id in left
    ensures TeardownAfter(Drained(c, left), AbortHandle(id)) == Drained(c, left - {id})
  {
    assert c.aborted + (c.children - left) + {id} == c.aborted + (c.children - (left - {id}));
  }

  /** The bridges in `ids` have lost their route entry and been aborted if they were still registered. */
  ghost function Closed(c: Conn, ids: set<nat>): Conn {
    c.(routes := c.routes - ids, doomed := c.doomed + ids, children := c.children - ids, aborted := c.aborted + ids * c.children)
  }

  lemma CloseOne(c: Conn, ids: set<nat>, id: nat)
    requires id !in ids
    ensures AbortChild(RemoveRoute(Closed(c, ids), id), id) == Closed(c, ids + {id})
  {
    var before, after := Closed(c, ids), Closed(c, ids + {id});
    assert before.routes - {id} == after.routes;
    assert before.doomed + {id} == after.doomed;
    assert before.children - {id} == after.children;
    assert id in c.children ==> before.aborted + {id} == after.aborted;
    assert id !in c.children ==> before.aborted == after.aborted;
  }

  /** A bound route is one the next scan will judge by the snapshot it is given; no other child's verdict changes. */
  lemma BoundIsJudged(c: Conn, id: nat, route: Route, snapshot: Snapshot)
    ensures RevokedRoutes(BindRoute(c, id, route), snapshot) ==
      RevokedRoutes(c, snapshot) - {id} + if StillAuthorized(route, snapshot) then {} else {id}
  {
    hide StillAuthorized;
  }

  /** The four writes of an identity, one protocol step each. */
  lemma FourWrites(c: Conn, key: Key, userId: string, route: Option<Route>)
    returns (first: Conn, second: Conn, third: Conn, last: Conn)
    requires c.phase == Writing(0, Identity(key, userId, route))
    ensures first == WriteField(c) && first.phase.Writing?
    ensures second == WriteField(first) && second.phase.Writing?
    ensures third == WriteField(second) && third.phase.Writing?
    ensures last == WriteField(third)
    ensures last == c.(phase := Accepted, login := true, key := Some(key), userId := Some(userId), pinned := route)
  {
    first := WriteField(c);
    second := WriteField(first);
    third := WriteField(second);
    last := WriteField(third);
  }

  class ConnectionState {
    var revoked: bool
    var sessionAborted: bool
    var nextChildId: nat
    var childAbortHandles: set<nat>
    var abortedHandles: set<nat>
    var bridgeRoutes: map<nat, Route>
    var login: bool
    var authenticatedPublicKey: Option<Key>
    var authenticatedUserId: Option<string>
    var pinnedRoute: Option<Route>
    ghost var conn: Conn

    ghost predicate Valid()
      reads this
    {
      && revoked == conn.Revoked()
      && sessionAborted == (conn.abort.SessionDown? || conn.abort.Draining? || conn.abort.Down?)
      && nextChildId == conn.nextChild
      && childAbortHandles == conn.children
      && abortedHandles == conn.aborted
      && bridgeRoutes == conn.routes
      && login == conn.login
      && authenticatedPublicKey == conn.key
      && authenticatedUserId == conn.userId
      && pinnedRoute == conn.pinned
    }

    constructor ()
      ensures Valid() && conn == NEW_CONNECTION
    {
      revoked, sessionAborted, nextChildId := false, false, 1;
      childAbortHandles, abortedHandles, bridgeRoutes := {}, {}, map[];
      login, authenticatedPublicKey, authenticatedUserId, pinnedRoute := false, None, None, None;
      conn := NEW_CONNECTION;
    }

    method AbortTakenHandle(id: nat)
      requires Valid() && conn.abort.Draining? && id in conn.abort.handles
      modifies this`abortedHandles, this`conn
      ensures Valid() && conn == TeardownAfter(old(conn), AbortHandle(id))
    {
      abortedHandles, conn := abortedHandles + {id}, TeardownAfter(conn, AbortHandle(id));
    }

    /** Takes the registry under its lock and aborts every handle it held. */
    method DrainChildren()
      requires Valid() && conn.abort == SessionDown(Other)
      modifies this`childAbortHandles, this`abortedHandles, this`conn
      ensures Valid() && conn == Drained(old(conn), {})
    {
      var children := childAbortHandles;
      childAbortHandles, conn := {}, TeardownAfter(conn, Drain);
      assert conn == Drained(old(conn), children);
      while children != {}
        invariant Valid()
        invariant children <= old(conn).children && conn == Drained(old(conn), children)
        decreases children
      {
        var id :| id in children;
        DrainOne(old(conn), children, id);
        AbortTakenHandle(id);
        children := children - {id};
      }
    }

    /** Only the first caller aborts; when it returns, the session and every child registered at the drain are aborted. */
    method Abort() returns (first: bool)
      requires Valid()
      modifies this
      ensures Valid()
      ensures first == old(conn).abort.Alive?
      ensures !first ==> conn == old(conn)
      ensures first ==> conn == old(conn).(abort := Down, children := {}, aborted := old(conn).aborted + old(conn).children)
    {
      if revoked {
        return false;
      }
      revoked, conn := true, TeardownAfter(conn, StartAbort);
      sessionAborted, conn := true, TeardownAfter(conn, AbortSession);
      DrainChildren();
      conn := TeardownAfter(conn, EndAbort);
      assert old(conn).children - {} == old(conn).children;
      first := true;
    }

    /** A refused child's own handle is aborted by the caller's side of the registration and never enters the registry. */
    method RegisterChildAbort() returns (id: Option<nat>)
      requires Valid()
      modifies this
      ensures Valid() && (conn, id) == RegisterChild(old(conn))
      ensures id.None? <==>
        || old(conn).Revoked()
        || |old(conn).children| >= MAX_CHILD_TASKS_PER_CONNECTION
        || old(conn).nextChild >= LAST_CHILD_ID
    {
      if revoked || |childAbortHandles| >= MAX_CHILD_TASKS_PER_CONNECTION || nextChildId >= LAST_CHILD_ID {
        return None;
      }
      id := Some(nextChildId);
      childAbortHandles := childAbortHandles + {nextChildId};
      nextChildId := nextChildId + 1;
      conn := RegisterChild(conn).0;
    }

    method UnregisterChildAbort(id: nat)
      requires Valid()
      modifies this
      ensures Valid() && conn == DropRoute(DropHandle(old(conn), id), id)
      ensures id !in conn.children
      ensures forall snapshot :: RevokedRoutes(conn, snapshot) == RevokedRoutes(old(conn), snapshot) - {id}
    {
      hide StillAuthorized;
      childAbortHandles, conn := childAbortHandles - {id}, DropHandle(conn, id);
      bridgeRoutes, conn := bridgeRoutes - {id}, DropRoute(conn, id);
    }

    method Bind(id: nat, route: Route)
      requires Valid()
      modifies this
      ensures Valid() && conn == BindRoute(old(conn), id, route)
      ensures forall snapshot ::
        RevokedRoutes(conn, snapshot) == RevokedRoutes(old(conn), snapshot) - {id} + if StillAuthorized(route, snapshot) then {} else {id}
    {
      hide StillAuthorized, RevokedRoutes;
      forall snapshot {
        BoundIsJudged(conn, id, route, snapshot);
      }
      bridgeRoutes, conn := bridgeRoutes[id := route], BindRoute(conn, id, route);
    }

    method AbortBridge(id: nat)
      requires Valid()
      modifies this
      ensures Valid() && conn == AbortChild(RemoveRoute(old(conn), id), id)
    {
      bridgeRoutes, conn := bridgeRoutes - {id}, RemoveRoute(conn, id);
      if id in childAbortHandles {
        childAbortHandles, abortedHandles := childAbortHandles - {id}, abortedHandles + {id};
      }
      conn := AbortChild(conn, id);
    }

    /** Exactly the bridges whose bound route `snapshot` does not authorize lose their entry and are aborted. */
    method AbortRevokedBridges(snapshot: Snapshot) returns (closed: nat)
      requires Valid()
      modifies this
      ensures Valid() && closed == |RevokedRoutes(old(conn), snapshot)|
      ensures conn == Closed(old(conn), RevokedRoutes(old(conn), snapshot))
    {
      hide StillAuthorized;
      var bad := set id | id in bridgeRoutes && !StillAuthorized(bridgeRoutes[id], snapshot);
      assert bad == RevokedRoutes(conn, snapshot);
      closed := |bad|;
      var todo := bad;
      assert conn == Closed(conn, bad - todo);
      hide Valid, Closed, RevokedRoutes, AbortChild, RemoveRoute;
      while todo != {}
        invariant Valid() && todo <= bad && conn == Closed(old(conn), bad - todo)
        decreases todo
      {
        var id :| id in todo;
        CloseOne(old(conn), bad - todo, id);
        assert bad - todo + {id} == bad - (todo - {id});
        AbortBridge(id);
        todo := todo - {id};
      }
      assert bad - todo == bad;
    }

    method SetAuthenticated(key: Key, userId: string, route: Option<Route>)
      requires Valid() && conn.phase == Writing(0, Identity(key, userId, route))
      modifies this`login, this`authenticatedPublicKey, this`authenticatedUserId, this`pinnedRoute, this`conn
      ensures Valid()
      ensures conn == old(conn).(phase := Accepted, login := true, key := Some(key), userId := Some(userId), pinned := route)
    {
      hide WriteField;
      ghost var first, second, third, last := FourWrites(conn, key, userId, route);
      login := true;
      authenticatedPublicKey := Some(key);
      authenticatedUserId := Some(userId);
      pinnedRoute := route;
      conn := last;
    }

    /** The fields are read one lock at a time; a connection without a login has nothing to revoke. */
    method Matches(snapshot: Option<Snapshot>) returns (matches: bool)
      requires Valid()
      ensures matches == AuthorizationMatches(conn, snapshot)
    {
      if !login {
        return true;
      }
      if snapshot.None? || authenticatedPublicKey.None? || authenticatedUserId.None? {
        return false;
      }
      var user := FindActiveUserByPublicKey(snapshot.value, authenticatedPublicKey.value);
      if user.None? || user.value.id != authenticatedUserId.value {
        return false;
      }
      if pinnedRoute.None? {
        return true;
      }
      return pinnedRoute.value.userId == authenticatedUserId.value && StillAuthorized(pinnedRoute.value, snapshot.value);
    }
  }
}
