/** Runs that show the windows the revocation theorems allow for are real. */
module SshWitness {
  import opened Common
  import opened SshRouting
  import opened SshProtocol
  import opened SshRevocation

  lemma Extend(steps: seq<Step>, p: Step) returns (longer: seq<Step>, s: State)
    requires Run(steps).Some? && Enabled(Run(steps).value, p)
    ensures longer == steps + [p] && Run(longer) == Some(s) && s == After(Run(steps).value, p)
  {
    longer := steps + [p];
    assert longer[..|longer| - 1] == steps;
    s := After(Run(steps).value, p);
  }

  // ---- One connection, numbered zero ----

  function WithConn(s: State, c: Conn): State {
    s.(conns := map[0 := c])
  }

  lemma DoAuth(steps: seq<Step>, s: State, c: Conn, p: AuthStep) returns (longer: seq<Step>, c': Conn)
    requires Run(steps) == Some(WithConn(s, c)) && s.history != [] && AuthEnabled(c, p)
    ensures c' == AuthAfter(c, p, s.history[|s.history| - 1], |s.history| - 1) && Run(longer) == Some(WithConn(s, c'))
  {
    hide Run, AuthEnabled, AuthAfter;
    var last: State;
    longer, last := Extend(steps, Auth(0, p));
    c' := AuthAfter(c, p, s.history[|s.history| - 1], |s.history| - 1);
    assert last == WithConn(s, c');
  }

  lemma DoChannel(steps: seq<Step>, s: State, c: Conn, p: ChannelStep) returns (longer: seq<Step>, c': Conn)
    requires Run(steps) == Some(WithConn(s, c)) && s.history != [] && ChannelEnabled(c, p)
    ensures c' == ChannelAfter(c, p, s.history[|s.history| - 1], |s.history| - 1) && Run(longer) == Some(WithConn(s, c'))
  {
    hide Run, ChannelEnabled, ChannelAfter;
    var last: State;
    longer, last := Extend(steps, Channel(0, p));
    c' := ChannelAfter(c, p, s.history[|s.history| - 1], |s.history| - 1);
    assert last == WithConn(s, c');
  }

  /** The proxy with `snapshot` stored and nothing else under way. */
  function Holding(snapshot: Snapshot): State {
    State([None, Some(snapshot)], map[], Stored, Idle, {})
  }

  /** A session of a user without a pinned route. */
  function Session(key: Key, userId: string): Conn {
    NEW_CONNECTION.(phase := Open(1), login := true, key := Some(key), userId := Some(userId))
  }

  lemma WriteIdentity(steps: seq<Step>, s: State, c: Conn, key: Key, userId: string) returns (longer: seq<Step>, c': Conn)
    requires Run(steps) == Some(WithConn(s, c)) && s.history != [] && c.phase == Writing(0, Identity(key, userId, None))
    ensures Run(longer) == Some(WithConn(s, c'))
    ensures c' == c.(phase := Accepted, login := true, key := Some(key), userId := Some(userId), pinned := None)
  {
    hide Run;
    longer, c' := DoAuth(steps, s, c, WriteAuth);
    longer, c' := DoAuth(longer, s, c', WriteAuth);
    longer, c' := DoAuth(longer, s, c', WriteAuth);
    longer, c' := DoAuth(longer, s, c', WriteAuth);
  }

  lemma Opens(key: Key, userId: string, snapshot: Snapshot)
    requires UserMatches(key, userId, snapshot)
    ensures AuthorizationMatches(Session(key, userId).(phase := Accepted), Some(snapshot))
  {
  }

  lemma Started(snapshot: Snapshot) returns (steps: seq<Step>)
    ensures Run(steps) == Some(WithConn(Holding(snapshot), NEW_CONNECTION))
  {
    var s: State;
    assert Run([]) == Some(INITIAL);
    hide Run;
    steps, s := Extend([], Write(Install(snapshot)));
    steps, s := Extend(steps, Register(0));
    assert s.history == Holding(snapshot).history && s.conns == map[0 := NEW_CONNECTION];
  }

  /** A session with an identity, opened while the store holds `snapshot`. */
  lemma OpenSession(snapshot: Snapshot, key: Key, userId: string) returns (steps: seq<Step>)
    requires UserMatches(key, userId, snapshot)
    ensures Run(steps) == Some(WithConn(Holding(snapshot), Session(key, userId)))
  {
    hide Run, UserMatches, AuthorizationMatches;
    var s, c := Holding(snapshot), NEW_CONNECTION;
    steps := Started(snapshot);
    steps, c := DoAuth(steps, s, c, StartAuth(Identity(key, userId, None)));
    steps, c := WriteIdentity(steps, s, c, key, userId);
    Opens(key, userId, snapshot);
    steps, c := DoAuth(steps, s, c, AuthSucceeded);
  }

  /** A bridge of that session, past its re-check against `snapshot`. */
  lemma OpenBridge(snapshot: Snapshot, key: Key, route: Route) returns (steps: seq<Step>, c: Conn)
    requires UserMatches(key, route.userId, snapshot) && StillAuthorized(route, snapshot)
    ensures Run(steps) == Some(WithConn(Holding(snapshot), c)) && c.registered && c.abort.Alive?
    ensures c.phase == Open(1) && c.login && c.aborted == {} && c.bridges == map[1 := Passed(route, 1)]
  {
    hide Run, UserMatches, StillAuthorized, AuthorizationMatches;
    var s := Holding(snapshot);
    steps := OpenSession(snapshot, key, route.userId);
    steps, c := DoAuth(steps, s, Session(key, route.userId), Resolve(route));
    steps, c := DoChannel(steps, s, c, Reserve);
    steps, c := DoChannel(steps, s, c, Bind(1));
    steps, c := DoChannel(steps, s, c, CheckUser(1));
    steps, c := DoChannel(steps, s, c, CheckRoute(1));
  }

  // ---- A pass that finishes first ----

  /** The store was emptied as `|history|`-th write, another task has begun to abort `c`, and the timer is at `timer`. */
  function Emptied(s: State, c: Conn, timer: Pass): State {
    State(s.history + [None], map[0 := c.(abort := Swapped(Other))], s.backend, timer, s.finished)
  }

  lemma Empties(before: seq<Step>, s: State, c: Conn) returns (steps: seq<Step>)
    requires Run(before) == Some(WithConn(s, c)) && s.history != [] && s.timer.Idle? && c.abort.Alive?
    ensures Run(steps) == Some(Emptied(s, c, Listing(|s.history|)))
  {
    hide Run;
    var last: State;
    steps, last := Extend(before, Teardown(0, StartAbort));
    steps, last := Extend(steps, Write(Revoke(Timer)));
    assert last.conns == map[0 := c.(abort := Swapped(Other))];
  }

  lemma Finds(before: seq<Step>, s: State, c: Conn) returns (steps: seq<Step>)
    requires Run(before) == Some(Emptied(s, c, Listing(|s.history|))) && c.registered && c.login
    ensures Run(steps) == Some(Emptied(s, c, Inspecting(|s.history|, {}, {0})))
  {
    hide Run, UserMatches, StillAuthorized;
    var last: State;
    steps, last := Extend(before, Revalidate(Timer, ListConnections));
    assert RegisteredConns(Emptied(s, c, Listing(|s.history|))) == {0};
    assert last == Emptied(s, c, Inspecting(|s.history|, {0}, {}));
    steps, last := Extend(steps, Revalidate(Timer, Inspect(0)));
    assert last.timer == Inspecting(|s.history|, {}, {0});
  }

  /**
   * Another task has begun to abort the connection; the timer empties the store,
   * and its pass skips the connection and finishes.
   */
  lemma PassSkips(before: seq<Step>, s: State, c: Conn) returns (steps: seq<Step>)
    requires Run(before) == Some(WithConn(s, c)) && s.history != [] && s.timer.Idle?
    requires c.registered && c.abort.Alive? && c.login
    ensures Run(steps) == Some(Emptied(s, c, Idle).(finished := s.finished + {|s.history|}))
  {
    hide Run, AuthorizationMatches, RegisteredConns, ListUnlocked;
    var last: State;
    steps := Empties(before, s, c);
    steps := Finds(steps, s, c);
    steps, last := Extend(steps, Revalidate(Timer, EndInspect));
    steps, last := Extend(steps, Revalidate(Timer, AbortNext(0)));
    assert last.timer == Aborting(|s.history|, {});
    steps, last := Extend(steps, Revalidate(Timer, EndAborting));
  }

  /**
   * A pass skips a connection another task has begun to abort, so it can finish
   * before that task has aborted anything.
   */
  lemma PassEndsBeforeOtherAbort(snapshot: Snapshot, key: Key, userId: string) returns (steps: seq<Step>)
    requires UserMatches(key, userId, snapshot)
    ensures Run(steps).Some?
    ensures
      var s := Run(steps).value;
      && 2 in s.finished && 0 in s.conns && s.conns[0].phase == Open(1) && |s.history| == 3
      && !AuthorizationMatches(s.conns[0], s.history[2]) && !SessionAborted(s.conns[0])
  {
    hide Run, UserMatches, StillAuthorized;
    steps := OpenSession(snapshot, key, userId);
    steps := PassSkips(steps, Holding(snapshot), Session(key, userId));
  }

  /** The same for a bridge: it is live, older than the finished pass, unauthorized, and its abort still to come. */
  lemma PassEndsBeforeBridgeAbort(snapshot: Snapshot, key: Key, route: Route) returns (steps: seq<Step>)
    requires UserMatches(key, route.userId, snapshot) && StillAuthorized(route, snapshot)
    ensures Run(steps).Some?
    ensures
      var s := Run(steps).value;
      && 2 in s.finished && 0 in s.conns && 1 in s.conns[0].bridges && |s.history| == 3
      && s.conns[0].bridges[1].Live() && s.conns[0].bridges[1].version < 2
      && !BridgeAuthorized(s.conns[0], 1, s.history[2]) && 1 !in s.conns[0].aborted && AbortIsComing(s.conns[0], 1)
  {
    hide Run, UserMatches, StillAuthorized, AbortIsComing;
    var c: Conn;
    steps, c := OpenBridge(snapshot, key, route);
    steps := PassSkips(steps, Holding(snapshot), c);
    BridgesAfterPass(steps, 2, 0, 1);
  }

  /** A session accepted while admission is paused is past `auth_succeeded` with no identity to revoke it by. */
  lemma AcceptedWithoutIdentity(snapshot: Snapshot) returns (steps: seq<Step>)
    ensures Run(steps).Some?
    ensures
      var s := Run(steps).value;
      && s.history == [None, Some(snapshot)] && 0 in s.conns && s.conns[0].phase == Open(1)
      && forall other :: AuthorizationMatches(s.conns[0], other)
  {
    hide Run;
    var s, c := Holding(snapshot), NEW_CONNECTION;
    steps := Started(snapshot);
    steps, c := DoAuth(steps, s, c, AcceptPaused);
    steps, c := DoAuth(steps, s, c, AuthSucceeded);
  }
}
