/** Translating the Backend's firewall rules into nft rules that decide every packet the same way. */
module FirewallRules {
  import opened Common
  import opened Ipv4
  import opened Intervals

  // ---- Rules as the Backend states them ----

  datatype Action = Accept | Drop | Reject

  datatype Protocol = All | Tcp | Udp

  datatype Spec = Spec(action: Action, protocol: Protocol, cidrs: seq<Cidr>, ports: seq<Range>)

  datatype Transport = TcpSegment | UdpDatagram | OtherTransport(number: nat)

  /** Only a fragment at offset zero carries ports. */
  datatype Packet = Packet(destination: nat, transport: Transport, port: nat, offset: nat)

  datatype Verdict = Accepted | Dropped | TcpReset | AdminProhibited | PortUnreachable

  predicate IsSpec(s: Spec) {
    forall i :: 0 <= i < |s.cidrs| ==> IsCidr(s.cidrs[i])
  }

  predicate Addressed(s: Spec, destination: nat)
    requires IsSpec(s)
  {
    exists i :: 0 <= i < |s.cidrs| && InBlock(s.cidrs[i], destination)
  }

  predicate OfProtocol(protocol: Protocol, transport: Transport) {
    protocol.All? || (protocol.Tcp? && transport.TcpSegment?) || (protocol.Udp? && transport.UdpDatagram?)
  }

  predicate HasPorts(s: Spec) { !s.protocol.All? && s.ports != [] }

  predicate Matches(s: Spec, p: Packet)
    requires IsSpec(s)
  {
    Addressed(s, p.destination) && OfProtocol(s.protocol, p.transport) && (HasPorts(s) ==> Covers(s.ports, p.port))
  }

  /** A rejected TCP segment gets a reset; a rule for one protocol and one for all differ in the ICMP error. */
  function Outcome(s: Spec, transport: Transport): Verdict {
    match s.action
    case Accept => Accepted
    case Drop => Dropped
    case Reject =>
      if transport.TcpSegment? then TcpReset else if s.protocol.All? then AdminProhibited else PortUnreachable
  }

  /** The verdict of the earliest matching rule, if there is one. */
  function FirstMatch(specs: seq<Spec>, p: Packet): Option<Verdict>
    requires forall i :: 0 <= i < |specs| ==> IsSpec(specs[i])
  {
    if specs == [] then None
    else if Matches(specs[0], p) then Some(Outcome(specs[0], p.transport))
    else FirstMatch(specs[1..], p)
  }

  // ---- Rules as nft runs them ----

  /** `fragment` restricts a rule to fragments past the first. */
  datatype NftRule = NftRule(
    addresses: seq<Range>, protocol: Option<Protocol>, ports: Option<seq<Range>>, fragment: bool, verdict: Verdict)

  /** A port match never holds of a fragment past the first. */
  predicate NftMatches(r: NftRule, p: Packet) {
    && Covers(r.addresses, p.destination)
    && (r.protocol.Some? ==> OfProtocol(r.protocol.value, p.transport))
    && (r.ports.Some? ==> p.offset == 0 && Covers(r.ports.value, p.port))
    && (r.fragment ==> p.offset != 0)
  }

  function Decide(rules: seq<NftRule>, p: Packet): Option<Verdict> {
    if rules == [] then None else if NftMatches(rules[0], p) then Some(rules[0].verdict) else Decide(rules[1..], p)
  }

  // ---- The translation ----

  function CidrRange(c: Cidr): Range
    requires IsCidr(c)
  {
    Range(Network(c), Broadcast(c))
  }

  function CidrRanges(cidrs: seq<Cidr>): seq<Range>
    requires forall i :: 0 <= i < |cidrs| ==> IsCidr(cidrs[i])
  {
    seq(|cidrs|, i requires 0 <= i < |cidrs| => CidrRange(cidrs[i]))
  }

  function AddressSet(s: Spec): seq<Range>
    requires IsSpec(s)
  {
    Merged(CidrRanges(s.cidrs))
  }

  function Render(s: Spec): seq<NftRule>
    requires IsSpec(s)
  {
    var addresses := AddressSet(s);
    if s.protocol.All? then
      match s.action
      case Accept => [NftRule(addresses, None, None, false, Accepted)]
      case Drop => [NftRule(addresses, None, None, false, Dropped)]
      case Reject =>
        [NftRule(addresses, Some(Tcp), None, false, TcpReset), NftRule(addresses, None, None, false, AdminProhibited)]
    else
      var ports := if s.ports == [] then None else Some(s.ports);
      var verdict :=
        match s.action
        case Accept => Accepted
        case Drop => Dropped
        case Reject => if s.protocol.Tcp? then TcpReset else PortUnreachable;
      [NftRule(addresses, Some(s.protocol), ports, false, verdict)]
      + if ports.Some? && s.action.Accept? then [NftRule(addresses, Some(s.protocol), None, true, Accepted)] else []
  }

  function RenderAll(specs: seq<Spec>): seq<NftRule>
    requires forall i :: 0 <= i < |specs| ==> IsSpec(specs[i])
  {
    if specs == [] then [] else Render(specs[0]) + RenderAll(specs[1..])
  }

  /** The set nft gets contains exactly the addresses of the listed blocks. */
  lemma AddressSetExact(s: Spec, destination: nat)
    requires IsSpec(s)
    ensures Covers(AddressSet(s), destination) <==> Addressed(s, destination)
  {
    var ranges := CidrRanges(s.cidrs);
    forall i | 0 <= i < |s.cidrs|
      ensures In(ranges[i], destination) <==> InBlock(s.cidrs[i], destination)
    {
      BoundsAreExact(s.cidrs[i], destination);
    }
    MergedExact(ranges, destination);
    hide Merged, InBlock, CidrRange, In;
  }

  lemma {:induction false} DecideSplit(first: seq<NftRule>, rest: seq<NftRule>, p: Packet)
    ensures Decide(first + rest, p) == if Decide(first, p).Some? then Decide(first, p) else Decide(rest, p)
  {
    if first == [] {
      assert first + rest == rest;
    } else {
      assert (first + rest)[1..] == first[1..] + rest;
      DecideSplit(first[1..], rest, p);
    }
  }

  lemma DecideOne(r: NftRule, p: Packet)
    ensures Decide([r], p) == if NftMatches(r, p) then Some(r.verdict) else None
  {
  }

  lemma DecideTwo(r: NftRule, s: NftRule, p: Packet)
    ensures Decide([r, s], p) == if NftMatches(r, p) then Some(r.verdict) else Decide([s], p)
  {
    assert [r, s][1..] == [s];
  }

  /** A translation is one rule or two. */
  lemma DecideRendered(s: Spec, p: Packet)
    requires IsSpec(s)
    ensures
      var rules := Render(s);
      && 1 <= |rules| <= 2
      && Decide(rules, p) ==
           if NftMatches(rules[0], p) then Some(rules[0].verdict)
           else if |rules| == 2 && NftMatches(rules[1], p) then Some(rules[1].verdict)
           else None
  {
    var rules := Render(s);
    hide AddressSet, NftMatches, Decide;
    if |rules| == 1 {
      assert rules == [rules[0]];
      DecideOne(rules[0], p);
    } else {
      assert rules == [rules[0], rules[1]];
      DecideTwo(rules[0], rules[1], p);
      DecideOne(rules[1], p);
    }
  }

  /** One rule's translation decides the packets with ports that the rule matches, and no others. */
  lemma RenderOne(s: Spec, p: Packet)
    requires IsSpec(s) && p.offset == 0
    ensures Decide(Render(s), p) == if Matches(s, p) then Some(Outcome(s, p.transport)) else None
  {
    DecideRendered(s, p);
    AddressSetExact(s, p.destination);
    hide AddressSet, Addressed, Covers, Decide;
  }

  /** The rendered rules decide every unfragmented packet and every first fragment as the first matching rule does. */
  lemma {:induction false} RenderDecides(specs: seq<Spec>, p: Packet)
    requires p.offset == 0 && forall i :: 0 <= i < |specs| ==> IsSpec(specs[i])
    ensures Decide(RenderAll(specs), p) == FirstMatch(specs, p)
  {
    if specs != [] {
      RenderOne(specs[0], p);
      DecideSplit(Render(specs[0]), RenderAll(specs[1..]), p);
      RenderDecides(specs[1..], p);
    }
  }

  // ---- Later fragments ----

  /** What decides a fragment without ports: a rule without ports, or an accepting one whatever its ports. */
  predicate MatchesLater(s: Spec, p: Packet)
    requires IsSpec(s)
  {
    Addressed(s, p.destination) && OfProtocol(s.protocol, p.transport) && (HasPorts(s) ==> s.action.Accept?)
  }

  function FirstLaterMatch(specs: seq<Spec>, p: Packet): Option<Verdict>
    requires forall i :: 0 <= i < |specs| ==> IsSpec(specs[i])
  {
    if specs == [] then None
    else if MatchesLater(specs[0], p) then Some(Outcome(specs[0], p.transport))
    else FirstLaterMatch(specs[1..], p)
  }

  lemma RenderOneLater(s: Spec, p: Packet)
    requires IsSpec(s) && p.offset != 0
    ensures Decide(Render(s), p) == if MatchesLater(s, p) then Some(Outcome(s, p.transport)) else None
  {
    DecideRendered(s, p);
    AddressSetExact(s, p.destination);
    hide AddressSet, Addressed, Covers, Decide;
  }

  lemma {:induction false} RenderDecidesLater(specs: seq<Spec>, p: Packet)
    requires p.offset != 0 && forall i :: 0 <= i < |specs| ==> IsSpec(specs[i])
    ensures Decide(RenderAll(specs), p) == FirstLaterMatch(specs, p)
  {
    if specs != [] {
      RenderOneLater(specs[0], p);
      DecideSplit(Render(specs[0]), RenderAll(specs[1..]), p);
      RenderDecidesLater(specs[1..], p);
    }
  }

  /** No matching rule accepts. */
  predicate LetThrough(verdict: Option<Verdict>) {
    verdict.None? || verdict.value.Accepted?
  }

  lemma {:induction false} LaterFollowsFirst(specs: seq<Spec>, first: Packet, later: Packet)
    requires forall i :: 0 <= i < |specs| ==> IsSpec(specs[i])
    requires later.destination == first.destination && later.transport == first.transport
    requires LetThrough(FirstMatch(specs, first))
    ensures LetThrough(FirstLaterMatch(specs, later))
  {
    if specs != [] && !Matches(specs[0], first) && !MatchesLater(specs[0], later) {
      LaterFollowsFirst(specs[1..], first, later);
    }
  }

  /** For every rule list: when a datagram's first fragment is accepted, so are all its later ones. */
  lemma FragmentsFollow(specs: seq<Spec>, first: Packet, later: Packet)
    requires forall i :: 0 <= i < |specs| ==> IsSpec(specs[i])
    requires first.offset == 0 && later.offset != 0
    requires later.destination == first.destination && later.transport == first.transport
    requires LetThrough(Decide(RenderAll(specs), first))
    ensures LetThrough(Decide(RenderAll(specs), later))
  {
    RenderDecides(specs, first);
    RenderDecidesLater(specs, later);
    LaterFollowsFirst(specs, first, later);
  }
}
