/** The SSH proxy's routing snapshot: who a key belongs to and which container routes a user owns. */
module SshRouting {
  import opened AsciiText
  import opened Common

  /** Key data as compared by the proxy (comments ignored). */
  type Key = string

  /** `keys` are the authorized keys as parsed; text that holds no key is `None`. */
  datatype User = User(id: string, username: string, status: string, keys: seq<Option<Key>>)

  datatype Server = Server(id: string, slug: string, status: string)

  datatype Image = Image(id: string, sshEnabled: bool)

  datatype Container = Container(
    id: string, ownerId: string, name: string, imageId: string, serverId: string, instanceName: string)

  datatype ProxyRoute = ProxyRoute(
    containerId: string, serverId: string, instanceName: string, routedIp: Option<string>, status: string, sshStatus: string)

  datatype Snapshot = Snapshot(
    users: seq<User>, hostSuffix: string, servers: map<string, Server>, images: map<string, Image>,
    containers: seq<Container>, routes: map<string, ProxyRoute>)

  /** A container route resolved for its owner. */
  datatype Route = Route(
    userId: string, username: string, serverId: string, serverSlug: string,
    containerId: string, containerName: string, instanceName: string, routedIp: string)
  {
    /** Equal in everything but the container's name. */
    predicate SameAuthority(other: Route) {
      && userId == other.userId
      && username == other.username
      && serverId == other.serverId
      && serverSlug == other.serverSlug
      && containerId == other.containerId
      && instanceName == other.instanceName
      && routedIp == other.routedIp
    }
  }

  // ---- Text ----

  /** One to three decimal digits without a leading zero, at most 255. */
  function Octet(s: string): Option<nat> {
    if |s| == 0 || |s| > 3 || (|s| > 1 && s[0] == '0') || exists i :: 0 <= i < |s| && !IsDigitChar(s[i]) then None
    else if Number(s) > 255 then None
    else Some(Number(s))
  }

  /** `n` dot-separated octets. */
  function Octets(s: string, n: nat): Option<seq<nat>> {
    if n == 0 then None
    else
      var dot := IndexOfChar(s, '.');
      var first := Octet(s[..dot]);
      if first.None? then None
      else if n == 1 then if dot == |s| then Some([first.value]) else None
      else if dot == |s| then None
      else
        var rest := Octets(s[dot + 1..], n - 1);
        if rest.None? then None else Some([first.value] + rest.value)
  }

  function ParseIpv4(s: string): Option<seq<nat>> {
    Octets(s, 4)
  }

  /** Not unspecified, loopback, multicast or the limited broadcast address. */
  predicate IsRoutableContainerIpv4(s: string) {
    var ip := ParseIpv4(s);
    && ip.Some?
    && ip.value != [0, 0, 0, 0]
    && ip.value != [255, 255, 255, 255]
    && |ip.value| == 4 && ip.value[0] != 127 && !(224 <= ip.value[0] < 240)
  }

  // ---- Routes ----

  predicate IsActive(route: ProxyRoute) {
    && route.instanceName != ""
    && route.routedIp.Some? && IsRoutableContainerIpv4(route.routedIp.value)
    && SameName(route.status, "running")
    && route.sshStatus == "running"
  }

  /** `c` belongs to the user, has SSH in its image, is on an online server, and its active route agrees with it. */
  predicate Eligible(s: Snapshot, c: Container, userId: string, ip: string) {
    && c.ownerId == userId
    && c.imageId in s.images && s.images[c.imageId].sshEnabled
    && c.serverId in s.servers && SameName(s.servers[c.serverId].status, "online")
    && c.id in s.routes
    && var route := s.routes[c.id];
    && route.serverId == c.serverId
    && route.instanceName == c.instanceName
    && IsActive(route)
    && route.routedIp == Some(ip)
  }

  function Username(users: seq<User>, userId: string): string {
    if users == [] then "" else if users[0].id == userId then users[0].username else Username(users[1..], userId)
  }

  function RouteTo(s: Snapshot, c: Container, userId: string, ip: string): Route
    requires Eligible(s, c, userId, ip)
  {
    var server := s.servers[c.serverId];
    Route(userId, Username(s.users, userId), server.id, server.slug, c.id, c.name, s.routes[c.id].instanceName, ip)
  }

  function Candidates(s: Snapshot, containers: seq<Container>, userId: string, ip: string): seq<Route> {
    if containers == [] then []
    else
      var last := containers[|containers| - 1];
      Candidates(s, containers[..|containers| - 1], userId, ip) +
      if Eligible(s, last, userId, ip) then [RouteTo(s, last, userId, ip)] else []
  }

  datatype RejectReason = RouteNotFound | AmbiguousContainer | InvalidTarget | PublicKeyRejected | AmbiguousUser

  datatype Resolution = Resolved(route: Route) | Rejected(reason: RejectReason)

  function Single(candidates: seq<Route>): Resolution {
    if |candidates| == 0 then Rejected(RouteNotFound)
    else if |candidates| == 1 then Resolved(candidates[0])
    else Rejected(AmbiguousContainer)
  }

  function ResolveForUserIp(s: Snapshot, userId: string, ip: string): Resolution {
    Single(Candidates(s, s.containers, userId, ip))
  }

  method ResolveOwnedRouteForUserIp(s: Snapshot, userId: string, ip: string) returns (r: Resolution)
    ensures r == ResolveForUserIp(s, userId, ip)
  {
    var candidates: seq<Route> := [];
    for i := 0 to |s.containers|
      invariant candidates == Candidates(s, s.containers[..i], userId, ip)
    {
      var c := s.containers[i];
      assert s.containers[..i + 1][..i] == s.containers[..i];
      if Eligible(s, c, userId, ip) {
        candidates := candidates + [RouteTo(s, c, userId, ip)];
      }
    }
    assert s.containers[..|s.containers|] == s.containers;
    r := if |candidates| == 0 then Rejected(RouteNotFound)
         else if |candidates| == 1 then Resolved(candidates[0])
         else Rejected(AmbiguousContainer);
  }

  ghost predicate OnlyEligible(s: Snapshot, containers: seq<Container>, userId: string, ip: string, i: nat) {
    && i < |containers|
    && Eligible(s, containers[i], userId, ip)
    && forall j :: 0 <= j < |containers| && Eligible(s, containers[j], userId, ip) ==> j == i
  }

  ghost predicate NoneEligible(s: Snapshot, containers: seq<Container>, userId: string, ip: string) {
    forall j :: 0 <= j < |containers| ==> !Eligible(s, containers[j], userId, ip)
  }

  lemma {:induction false} CandidatesCount(s: Snapshot, containers: seq<Container>, userId: string, ip: string)
    ensures |Candidates(s, containers, userId, ip)| == 0 <==> NoneEligible(s, containers, userId, ip)
    ensures |Candidates(s, containers, userId, ip)| == 1 <==> exists i: nat :: OnlyEligible(s, containers, userId, ip, i)
    ensures forall i: nat :: OnlyEligible(s, containers, userId, ip, i) ==>
      Candidates(s, containers, userId, ip) == [RouteTo(s, containers[i], userId, ip)]
  {
    hide Eligible;
    if containers != [] {
      var front, n := containers[..|containers| - 1], |containers| - 1;
      CandidatesCount(s, front, userId, ip);
      assert forall j :: 0 <= j < n ==> front[j] == containers[j];
      if Eligible(s, containers[n], userId, ip) {
        assert NoneEligible(s, front, userId, ip) <==> OnlyEligible(s, containers, userId, ip, n);
        assert forall i: nat :: OnlyEligible(s, containers, userId, ip, i) ==> i == n;
      } else {
        assert forall i: nat :: OnlyEligible(s, containers, userId, ip, i) <==> OnlyEligible(s, front, userId, ip, i);
      }
    }
  }

  /** An address resolves for a user exactly when one of their containers, and no other of theirs, is reachable there. */
  lemma ResolvesExactlyOne(s: Snapshot, userId: string, ip: string, route: Route)
    ensures ResolveForUserIp(s, userId, ip) == Resolved(route) <==>
      exists i: nat :: OnlyEligible(s, s.containers, userId, ip, i) && route == RouteTo(s, s.containers[i], userId, ip)
  {
    hide Eligible, RouteTo;
    CandidatesCount(s, s.containers, userId, ip);
  }

  // ---- Targets ----

  predicate HasSuffix(s: string, suffix: string) {
    |suffix| <= |s| && s[|s| - |suffix|..] == suffix
  }

  /** What is left of a target once its trailing dots and the host suffix are off, if that is a single label. */
  function ContainerNameForHost(s: Snapshot, target: string): Option<string> {
    var host := Lower(TrimEndDots(target));
    var name :=
      if s.hostSuffix != "" && HasSuffix(host, "." + s.hostSuffix)
      then host[..|host| - |s.hostSuffix| - 1]
      else host;
    if && 1 <= |name| <= 63
       && (forall i :: 0 <= i < |name| ==> IsAlphanumericChar(name[i]) || name[i] == '-')
       && IsAlphanumericChar(name[0])
    then Some(name)
    else None
  }

  /** The routes of the user's containers of that name, each resolved through its own address. */
  function NamedRoutes(s: Snapshot, containers: seq<Container>, userId: string, name: string): seq<Route> {
    if containers == [] then []
    else
      var c, rest := containers[0], NamedRoutes(s, containers[1..], userId, name);
      if c.ownerId == userId && SameName(c.name, name) && c.id in s.routes && s.routes[c.id].routedIp.Some? then
        match ResolveForUserIp(s, userId, s.routes[c.id].routedIp.value)
        case Resolved(route) => (if SameName(route.containerName, name) then [route] else []) + rest
        case Rejected(_) => rest
      else rest
  }

  function ResolveForUserTarget(s: Snapshot, userId: string, target: string): Resolution {
    if ParseIpv4(target).Some? then ResolveForUserIp(s, userId, target)
    else
      var name := ContainerNameForHost(s, target);
      if name.None? then Rejected(InvalidTarget) else Single(NamedRoutes(s, s.containers, userId, name.value))
  }

  /** What revalidation asks of a bound route. */
  predicate StillAuthorized(route: Route, s: Snapshot) {
    var current := ResolveForUserIp(s, route.userId, route.routedIp);
    current.Resolved? && route.SameAuthority(current.route)
  }

  lemma ResolvedIsOwned(s: Snapshot, userId: string, ip: string)
    ensures
      var r := ResolveForUserIp(s, userId, ip);
      r.Resolved? ==> r.route.userId == userId && r.route.routedIp == ip && ParseIpv4(ip).Some? && StillAuthorized(r.route, s)
    ensures
      var r := ResolveForUserIp(s, userId, ip);
      r.Resolved? ==> exists i :: 0 <= i < |s.containers| && s.containers[i].ownerId == userId && s.containers[i].id == r.route.containerId
  {
    var r := ResolveForUserIp(s, userId, ip);
    if r.Resolved? {
      ResolvesExactlyOne(s, userId, ip, r.route);
      var i: nat :| OnlyEligible(s, s.containers, userId, ip, i) && r.route == RouteTo(s, s.containers[i], userId, ip);
      assert s.containers[i].ownerId == userId && s.containers[i].id == r.route.containerId;
    }
  }

  lemma {:induction false} NamedRoutesResolve(s: Snapshot, containers: seq<Container>, userId: string, name: string, k: nat)
    requires k < |NamedRoutes(s, containers, userId, name)|
    ensures
      var route := NamedRoutes(s, containers, userId, name)[k];
      ResolveForUserIp(s, userId, route.routedIp) == Resolved(route)
  {
    hide ResolveForUserIp, SameName;
    if containers != [] {
      var c := containers[0];
      var rest := NamedRoutes(s, containers[1..], userId, name);
      var added := |NamedRoutes(s, containers, userId, name)| - |rest|;
      if added <= k {
        NamedRoutesResolve(s, containers[1..], userId, name, k - added);
      } else {
        ResolvedIsOwned(s, userId, s.routes[c.id].routedIp.value);
      }
    }
  }

  /**
   * Binding by name and re-checking by address ask the same question: a target
   * that resolved is owned by the user, is still authorized by that snapshot,
   * and its address resolves to the very same route.
   */
  lemma RecheckByAddressAgrees(s: Snapshot, userId: string, target: string)
    ensures
      var first := ResolveForUserTarget(s, userId, target);
      first.Resolved? ==>
        && first.route.userId == userId
        && ResolveForUserTarget(s, userId, first.route.routedIp) == first
        && StillAuthorized(first.route, s)
  {
    hide ContainerNameForHost, ParseIpv4, Candidates;
    var first := ResolveForUserTarget(s, userId, target);
    if first.Resolved? {
      if ParseIpv4(target).None? {
        NamedRoutesResolve(s, s.containers, userId, ContainerNameForHost(s, target).value, 0);
      } else {
        ResolvedIsOwned(s, userId, target);
      }
      ResolvedIsOwned(s, userId, first.route.routedIp);
    }
  }

  // ---- Keys ----

  predicate Holds(user: User, key: Key) {
    user.status == "active" && Some(key) in user.keys
  }

  /** The indices of the active users holding `key`, in order. */
  function Holders(users: seq<User>, key: Key): seq<nat> {
    if users == [] then []
    else Holders(users[..|users| - 1], key) + if Holds(users[|users| - 1], key) then [|users| - 1] else []
  }

  function FindActiveUserByPublicKey(s: Snapshot, key: Key): Option<User>
  {
    HoldersInRange(s.users, key);
    var holders := Holders(s.users, key);
    if |holders| == 1 then Some(s.users[holders[0]]) else None
  }

  lemma {:induction false} HoldersInRange(users: seq<User>, key: Key)
    ensures forall i :: 0 <= i < |Holders(users, key)| ==> Holders(users, key)[i] < |users|
  {
    if users != [] {
      HoldersInRange(users[..|users| - 1], key);
    }
  }

  lemma {:induction false} HoldersExact(users: seq<User>, key: Key)
    ensures forall i :: i in Holders(users, key) <==> 0 <= i < |users| && Holds(users[i], key)
    ensures forall j, k :: 0 <= j < k < |Holders(users, key)| ==> Holders(users, key)[j] < Holders(users, key)[k]
  {
    if users != [] {
      HoldersExact(users[..|users| - 1], key);
      HoldersInRange(users[..|users| - 1], key);
    }
  }

  /** A key names a user exactly when that user, active, is its only active holder. */
  lemma KeyNamesExactlyOne(s: Snapshot, key: Key, i: nat)
    requires i < |s.users|
    ensures Holders(s.users, key) == [i] <==>
      Holds(s.users[i], key) && forall j :: 0 <= j < |s.users| && Holds(s.users[j], key) ==> j == i
    ensures Holders(s.users, key) == [i] ==> FindActiveUserByPublicKey(s, key) == Some(s.users[i])
  {
    var holders := Holders(s.users, key);
    HoldersExact(s.users, key);
    HoldersInRange(s.users, key);
    assert |holders| > 1 ==> holders[0] < holders[1];
    if Holds(s.users[i], key) && forall j :: 0 <= j < |s.users| && Holds(s.users[j], key) ==> j == i {
      forall k | 0 <= k < |holders|
        ensures holders[k] == i
      {
        assert holders[k] in holders;
        assert Holds(s.users[holders[k]], key);
      }
      assert i in holders;
      assert holders == [i];
    }
    if holders == [i] {
      assert i in holders;
      forall j | 0 <= j < |s.users| && Holds(s.users[j], key)
        ensures j == i
      {
        assert j in holders;
      }
    }
  }

  function At(index: map<Key, seq<nat>>, key: Key): seq<nat> {
    if key in index then index[key] else []
  }

  /** `result` is `index` with `user` added once under each of the keys. */
  ghost predicate Joined(result: map<Key, seq<nat>>, index: map<Key, seq<nat>>, keys: seq<Option<Key>>, user: nat) {
    forall key :: At(result, key) == At(index, key) + if Some(key) in keys then [user] else []
  }

  lemma JoinOne(result: map<Key, seq<nat>>, index: map<Key, seq<nat>>, keys: seq<Option<Key>>, next: Option<Key>, user: nat)
    requires Joined(result, index, keys, user) && forall key :: user !in At(index, key)
    ensures
      if next.None? || user in At(result, next.value) then Joined(result, index, keys + [next], user)
      else Joined(result[next.value := At(result, next.value) + [user]], index, keys + [next], user)
  {
    var after := if next.None? || user in At(result, next.value) then result else result[next.value := At(result, next.value) + [user]];
    forall key
      ensures At(after, key) == At(index, key) + if Some(key) in keys + [next] then [user] else []
    {
      assert At(result, key) == At(index, key) + if Some(key) in keys then [user] else [];
    }
  }

  /** One active user's keys join the index; a key listed twice joins once. */
  method AddUserKeys(index: map<Key, seq<nat>>, keys: seq<Option<Key>>, user: nat) returns (result: map<Key, seq<nat>>)
    requires forall key :: user !in At(index, key)
    ensures forall key :: At(result, key) == At(index, key) + if Some(key) in keys then [user] else []
  {
    result := index;
    assert Joined(result, index, keys[..0], user);
    for k := 0 to |keys|
      invariant Joined(result, index, keys[..k], user)
    {
      hide Joined;
      assert keys[..k + 1] == keys[..k] + [keys[k]];
      JoinOne(result, index, keys[..k], keys[k], user);
      if keys[k].Some? {
        var holders := At(result, keys[k].value);
        if user !in holders {
          result := result[keys[k].value := holders + [user]];
        }
      }
    }
    assert keys[..|keys|] == keys;
  }

  /** The key index a snapshot is built with lists, for every key, exactly its active holders once each. */
  method BuildKeyIndex(users: seq<User>) returns (index: map<Key, seq<nat>>)
    ensures forall key :: At(index, key) == Holders(users, key)
  {
    index := map[];
    for i := 0 to |users|
      invariant forall key :: At(index, key) == Holders(users[..i], key)
    {
      assert users[..i + 1][..i] == users[..i];
      HoldersAll(users[..i]);
      if users[i].status == "active" {
        index := AddUserKeys(index, users[i].keys, i);
      }
    }
    assert users[..|users|] == users;
  }

  lemma HoldersAll(users: seq<User>)
    ensures forall key, i :: 0 <= i < |Holders(users, key)| ==> Holders(users, key)[i] < |users|
  {
    forall key {
      HoldersInRange(users, key);
    }
  }
}
