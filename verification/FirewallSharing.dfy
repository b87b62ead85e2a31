/** Two agents with different known server ids on one host, between two changes of the table by anyone else. */
module FirewallSharing {
  import opened Common
  import opened FirewallKeeper

  datatype Host = Host(a: Keeper, b: Keeper, table: Option<Listing>)

  /** A step of agent A or of agent B. */
  datatype HostStep = HostStep(byA: bool, step: Step)

  function AgentOf(h: Host, a: bool): Keeper {
    if a then h.a else h.b
  }

  /** What passive checks consist of. */
  predicate PassiveStep(p: Step) {
    p.CallCheckStep? || p.Reset? || p.BeginTask? || p.ListStep? || p.WriteStep? || p.RelistStep?
  }

  /** Only passive checks are queued or running, and a check about to write has not listed a foreign table. */
  predicate PassiveOnly(k: Keeper) {
    && (forall i :: 0 <= i < |k.queue| ==> k.queue[i].Check?)
    && match k.at
       case Nowhere => true
       case Verifying(mode, next) => mode.Passive? && next.Finish?
       case Installing(rendered, next) =>
         next.Finish? && rendered == k.document && k.seen != [] && !Foreign(k.owner, k.seen[|k.seen| - 1])
       case Relisting(rendered, next) => next.Finish? && rendered == k.document
       case _ => false
  }

  predicate Enabled2(h: Host, p: HostStep) {
    PassiveStep(p.step) && Enabled(AgentOf(h, p.byA), p.step)
  }

  function After2(h: Host, p: HostStep): Host
    requires Enabled2(h, p)
  {
    if p.byA then Host(KeeperAfter(h.a, h.table, p.step), h.b, TableAfter(h.a, h.table, p.step))
    else Host(h.a, KeeperAfter(h.b, h.table, p.step), TableAfter(h.b, h.table, p.step))
  }

  function Run2(start: Host, steps: seq<HostStep>): Option<Host> {
    if steps == [] then Some(start)
    else
      var before := Run2(start, steps[..|steps| - 1]);
      if before.Some? && Enabled2(before.value, steps[|steps| - 1])
      then Some(After2(before.value, steps[|steps| - 1]))
      else None
  }

  predicate Sharing(h: Host) {
    h.a.owner.Server? && h.b.owner.Server? && h.a.owner != h.b.owner && PassiveOnly(h.a) && PassiveOnly(h.b)
  }

  predicate Replaces(p: Step) {
    p.WriteStep? && !p.write.WriteRefused?
  }

  /** How often one agent replaced the table. */
  function Writes(steps: seq<HostStep>, a: bool): nat {
    if steps == [] then 0
    else
      var p := steps[|steps| - 1];
      Writes(steps[..|steps| - 1], a) + if p.byA == a && Replaces(p.step) then 1 else 0
  }

  /** An error after a write that took effect, or no listing after one. */
  predicate LosesResult(p: Step) {
    (p.WriteStep? && p.write.WriteLost?) || (p.RelistStep? && !p.ok)
  }

  /** How often nft kept from it what its write had done. */
  function Lost(steps: seq<HostStep>, a: bool): nat {
    if steps == [] then 0
    else
      var p := steps[|steps| - 1];
      Lost(steps[..|steps| - 1], a) + if p.byA == a && LosesResult(p.step) then 1 else 0
  }

  /** The keeper has no reason to write: the table is another's, or the one it wrote. */
  predicate Content(k: Keeper, table: Option<Listing>) {
    match k.at
    case Installing(_, _) => false
    case Relisting(_, _) => Foreign(k.owner, table) || Carries(table, Claim(k.owner, KeyOf(k.document)))
    case _ => Foreign(k.owner, table) || Intact(k, table)
  }

  /** A passive check that is over leaves everything but `verified` as it is. */
  lemma SettledStays(k: Keeper, verified: bool)
    requires forall i :: 0 <= i < |k.queue| ==> k.queue[i].Check?
    ensures Settle(k, verified, Finish) == k.(verified := verified, at := Nowhere)
    ensures PassiveOnly(k.(verified := verified, at := Nowhere))
  {
  }

  lemma ListedStays(k: Keeper, listing: Option<Listing>)
    requires PassiveOnly(k) && k.at.Verifying?
    ensures PassiveOnly(Listed(k, listing))
    ensures Listed(k, listing).at.Installing? ==> !Foreign(k.owner, listing)
  {
    hide Intact, Foreign, Settle, TableWorkOnly;
    SettledStays(k, true);
    SettledStays(k, false);
    SettledStays(k.(seen := k.seen + [listing]), true);
    SettledStays(k.(seen := k.seen + [listing]), false);
  }

  lemma RelistedStays(k: Keeper, listing: Option<Listing>)
    requires PassiveOnly(k) && k.at.Relisting?
    ensures PassiveOnly(Relisted(k, listing)) && Relisted(k, listing).at.Nowhere?
  {
    hide Foreign, Settle, TableWorkOnly;
    var looked := k.(seen := k.seen + [listing]);
    SettledStays(looked, false);
    if Carries(listing, Claim(k.owner, KeyOf(k.at.rendered))) {
      SettledStays(looked.(snapshot := Some(Snapshot(k.owner, KeyOf(k.at.rendered), listing.value))), true);
    }
  }

  lemma WriteStays(k: Keeper, table: Option<Listing>, p: Step)
    requires PassiveOnly(k) && Enabled(k, p) && p.WriteStep?
    ensures PassiveOnly(KeeperAfter(k, table, p)) && !KeeperAfter(k, table, p).at.Installing?
  {
    hide Foreign, Settle, TableWorkOnly;
    SettledStays(k, false);
    SettledStays(k.(written := None, seen := []), false);
  }

  lemma PassiveStays(k: Keeper, table: Option<Listing>, p: Step)
    requires PassiveOnly(k) && PassiveStep(p) && Enabled(k, p)
    ensures PassiveOnly(KeeperAfter(k, table, p)) && KeeperAfter(k, table, p).owner == k.owner
  {
    hide Listed, Relisted, Wrote, Settle, Foreign;
    match p {
      case ListStep(_) =>
        ListedStays(k, table);
        SettledStays(k, false);
      case RelistStep(_) =>
        RelistedStays(k, table);
        SettledStays(k, false);
      case WriteStep(_, _) => WriteStays(k, table, p);
      case _ =>
    }
  }

  lemma OwnStepKeepsContent(k: Keeper, table: Option<Listing>, p: Step)
    requires PassiveOnly(k) && PassiveStep(p) && Enabled(k, p)
    requires p.WriteStep? ==> p.write.WriteDone?
    requires p.RelistStep? ==> p.ok
    requires Content(k, table) || p.WriteStep?
    ensures Content(KeeperAfter(k, table, p), TableAfter(k, table, p))
  {
  }

  lemma OtherStepKeepsContent(k: Keeper, other: Keeper, table: Option<Listing>, p: Step)
    requires k.owner != other.owner && other.owner.Server? && PassiveStep(p) && Enabled(other, p) && Content(k, table)
    ensures Content(k, TableAfter(other, table, p))
  {
  }

  lemma WritesOnlyWhenDiscontent(k: Keeper, table: Option<Listing>, p: Step)
    requires Enabled(k, p)
    ensures Content(k, table) ==> !p.WriteStep?
  {
  }

  /**
   * However the two agents' checks interleave, each replaces the table at most
   * once, plus once more for every time nft kept it from learning what it wrote.
   */
  lemma {:induction false} WritesAtMostOnce(start: Host, steps: seq<HostStep>, a: bool)
    requires Sharing(start) && Run2(start, steps).Some?
    ensures Sharing(Run2(start, steps).value)
    ensures
      var h := Run2(start, steps).value;
      Writes(steps, a) + (if Content(AgentOf(h, a), h.table) then 0 else 1) <= 1 + Lost(steps, a)
  {
    if steps != [] {
      hide PassiveOnly, KeeperAfter, TableAfter, Content, Enabled;
      var before, p := steps[..|steps| - 1], steps[|steps| - 1];
      WritesAtMostOnce(start, before, a);
      var h := Run2(start, before).value;
      var k := AgentOf(h, a);
      PassiveStays(AgentOf(h, p.byA), h.table, p.step);
      if p.byA == a {
        WritesOnlyWhenDiscontent(k, h.table, p.step);
        if (if p.step.WriteStep? then p.step.write.WriteDone? else Content(k, h.table) && (p.step.RelistStep? ==> p.step.ok)) {
          OwnStepKeepsContent(k, h.table, p.step);
        }
      } else if Content(k, h.table) {
        OtherStepKeepsContent(k, AgentOf(h, p.byA), h.table, p.step);
      }
    }
  }

  /** The other agent replaced the table after this agent's last listing. */
  predicate OtherWroteSinceList(steps: seq<HostStep>, a: bool) {
    steps != [] &&
    var p := steps[|steps| - 1];
    if p.byA == a && p.step.ListStep? then false
    else (p.byA != a && Replaces(p.step)) || OtherWroteSinceList(steps[..|steps| - 1], a)
  }

  /** A check starts to write by listing a table that is not foreign, and waits to write without touching the table. */
  lemma OwnStepTowardsWrite(k: Keeper, table: Option<Listing>, p: Step)
    requires PassiveOnly(k) && PassiveStep(p) && Enabled(k, p) && KeeperAfter(k, table, p).at.Installing?
    ensures TableAfter(k, table, p) == table
    ensures if p.ListStep? then !Foreign(k.owner, table) else k.at.Installing?
  {
    hide Listed, Relisted, Wrote, Settle, Foreign;
    match p {
      case ListStep(_) =>
        ListedStays(k, table);
        SettledStays(k, false);
      case RelistStep(_) =>
        RelistedStays(k, table);
        SettledStays(k, false);
      case WriteStep(_, _) => WriteStays(k, table, p);
      case _ =>
    }
  }

  lemma OtherStepDecides(k: Keeper, other: Keeper, table: Option<Listing>, p: Step)
    requires k.owner != other.owner && other.owner.Server? && PassiveStep(p) && Enabled(other, p)
    ensures if Replaces(p) then Foreign(k.owner, TableAfter(other, table, p)) else TableAfter(other, table, p) == table
  {
  }

  /**
   * What a check is about to overwrite is never the table it listed if it is
   * foreign. It is foreign exactly when the other agent replaced the table since
   * the check listed it.
   */
  lemma {:induction false} OverwritesOnlyUnlisted(start: Host, steps: seq<HostStep>, a: bool)
    requires Sharing(start) && Run2(start, steps).Some? && AgentOf(Run2(start, steps).value, a).at.Installing?
    ensures
      var h := Run2(start, steps).value;
      var k := AgentOf(h, a);
      && (Foreign(k.owner, h.table) ==> k.seen != [] && k.seen[|k.seen| - 1] != h.table)
      && (!AgentOf(start, a).at.Installing? ==> (Foreign(k.owner, h.table) <==> OtherWroteSinceList(steps, a)))
  {
    WritesAtMostOnce(start, steps, a);
    if steps != [] && !AgentOf(start, a).at.Installing? {
      hide PassiveOnly, KeeperAfter, TableAfter, Enabled, Foreign, Replaces, Content;
      var before, p := steps[..|steps| - 1], steps[|steps| - 1];
      WritesAtMostOnce(start, before, a);
      var h := Run2(start, before).value;
      PassiveStays(AgentOf(h, p.byA), h.table, p.step);
      if p.byA == a {
        OwnStepTowardsWrite(AgentOf(h, a), h.table, p.step);
      } else {
        OtherStepDecides(AgentOf(h, a), AgentOf(h, p.byA), h.table, p.step);
      }
      if AgentOf(h, a).at.Installing? {
        OverwritesOnlyUnlisted(start, before, a);
      }
    }
  }

  // ---- Both exceptions happen ----

  lemma Extend(start: Host, steps: seq<HostStep>, p: HostStep) returns (longer: seq<HostStep>, h: Host)
    requires Run2(start, steps).Some? && Enabled2(Run2(start, steps).value, p)
    ensures longer == steps + [p] && Run2(start, longer) == Some(h) && h == After2(Run2(start, steps).value, p)
    ensures Writes(longer, true) == Writes(steps, true) + if p.byA && Replaces(p.step) then 1 else 0
    ensures Lost(longer, true) == Lost(steps, true) + if p.byA && LosesResult(p.step) then 1 else 0
  {
    longer := steps + [p];
    assert longer[..|longer| - 1] == steps;
    h := After2(Run2(start, steps).value, p);
  }

  /** Both agents list a missing table, then both write it. */
  lemma BothWriteMissingTable(start: Host) returns (steps: seq<HostStep>)
    requires Sharing(start) && start.table.None? && start.a.at.Verifying? && start.b.at.Verifying?
    ensures Run2(start, steps).Some?
    ensures
      var h := Run2(start, steps).value;
      h.a.at.Installing? && h.table.Some? && h.table.value.claim.Some? && h.table.value.claim.value.owner == h.b.owner
  {
    assert Run2(start, []) == Some(start);
    hide Run2, Writes, Lost;
    var h: Host;
    steps, h := Extend(start, [], HostStep(true, ListStep(true)));
    steps, h := Extend(start, steps, HostStep(false, ListStep(true)));
    steps, h := Extend(start, steps, HostStep(false, WriteStep(WriteDone, "")));
  }

  /** A check that lists a table which is not foreign and of which nothing is retained goes on to write. */
  lemma ListThenWrite(start: Host, before: seq<HostStep>, write: WriteOutcome) returns (steps: seq<HostStep>, h: Host)
    requires Run2(start, before).Some? && PassiveOnly(Run2(start, before).value.a) && !write.WriteRefused?
    requires
      var h := Run2(start, before).value;
      h.a.at.Verifying? && !Foreign(h.a.owner, h.table) && !Intact(h.a, h.table)
    ensures Run2(start, steps) == Some(h) && Writes(steps, true) == Writes(before, true) + 1
    ensures Lost(steps, true) == Lost(before, true) + if write.WriteLost? then 1 else 0
    ensures PassiveOnly(h.a) && h.a.queue == Run2(start, before).value.a.queue
    ensures h.a.checkPending == Run2(start, before).value.a.checkPending
    ensures h.a.snapshot.None? && (write.WriteLost? ==> h.a.at.Nowhere?) && !Foreign(h.a.owner, h.table)
  {
    hide Run2, Writes, Lost;
    steps, h := Extend(start, before, HostStep(true, ListStep(true)));
    steps, h := Extend(start, steps, HostStep(true, WriteStep(write, "")));
  }

  lemma CheckAgain(start: Host, before: seq<HostStep>) returns (steps: seq<HostStep>, h: Host)
    requires Run2(start, before).Some?
    requires
      var k := Run2(start, before).value.a;
      k.at.Nowhere? && k.queue == [] && !k.checkPending
    ensures Run2(start, steps) == Some(h) && Writes(steps, true) == Writes(before, true) && Lost(steps, true) == Lost(before, true)
    ensures
      var was := Run2(start, before).value;
      h == was.(a := was.a.(at := Verifying(Passive, Finish), queue := [], checkPending := false))
  {
    hide Run2, Writes, Lost;
    steps, h := Extend(start, before, HostStep(true, CallCheckStep));
    assert h.a.queue == [Check];
    steps, h := Extend(start, steps, HostStep(true, BeginTask));
  }

  /** An agent whose write took effect but was reported as failed writes once more at its next check. */
  lemma LostWriteIsRepeated(start: Host) returns (steps: seq<HostStep>)
    requires Sharing(start) && start.table.None? && start.a.at.Verifying? && start.a.queue == [] && !start.a.checkPending
    ensures Run2(start, steps).Some? && Writes(steps, true) == 2 && Lost(steps, true) == 1
  {
    assert Run2(start, []) == Some(start) && Writes([], true) == 0 && Lost([], true) == 0;
    hide Run2, Writes, Lost;
    var h: Host;
    steps, h := ListThenWrite(start, [], WriteLost);
    steps, h := CheckAgain(start, steps);
    steps, h := ListThenWrite(start, steps, WriteDone);
  }
}
