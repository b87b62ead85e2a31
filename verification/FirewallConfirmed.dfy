/** What `present` means in every run of the keeper. */
module FirewallConfirmed {
  import opened Common
  import opened FirewallKeeper

  // ---- The retained listing ----

  /** The retained listing is the first one taken after the last table write, and shows what that write rendered. */
  predicate SnapshotOk(k: Keeper) {
    k.snapshot.Some? ==>
      && k.written == Some(Claim(k.snapshot.value.owner, k.snapshot.value.key))
      && k.seen != [] && k.seen[0] == Some(k.snapshot.value.listing)
      && Carries(k.seen[0], k.written.value)
      && (k.verified ==> k.seen[|k.seen| - 1] == k.seen[0])
  }

  predicate AwaitOk(k: Keeper) {
    && (k.document.Some? ==> k.documentOwner == Some(k.owner))
    && (k.at.Installing? || k.at.Relisting? ==> k.snapshot.None?)
    && (k.at.Relisting? ==> k.seen == [] && k.written == Some(Claim(k.owner, KeyOf(k.at.rendered))))
  }

  // ---- Calls still to be answered ----

  /**
   * An `apply` was recorded when it was called, no later than now, and none to
   * come is older once the document is confirmed. If every restore was called in
   * an epoch without an `apply` (`timely`), none is left by then.
   */
  predicate TaskOk(task: Task, arrivals: set<(string, nat)>, epoch: nat, confirmed: bool, timely: bool) {
    match task
    case Apply(document, called) =>
      (document.digest, called) in arrivals && called <= epoch && (confirmed ==> called == epoch)
    case Restore => timely ==> !confirmed
    case _ => true
  }

  predicate InOrder(earlier: Task, later: Task, epoch: nat, timely: bool) {
    earlier.Apply? ==>
      && (later.Apply? ==> earlier.epoch <= later.epoch)
      && (timely && later.Restore? ==> earlier.epoch < epoch)
  }

  predicate TasksOk(tasks: seq<Task>, arrivals: set<(string, nat)>, epoch: nat, confirmed: bool, timely: bool) {
    && (forall i: nat :: i < |tasks| ==> TaskOk(tasks[i], arrivals, epoch, confirmed, timely))
    && (forall i: nat, j: nat :: i < j < |tasks| ==> InOrder(tasks[i], tasks[j], epoch, timely))
  }

  /** What is still to be done, the running task first while it has not used its document. */
  function Pending(k: Keeper): seq<Task> {
    match k.at
    case Reading => [Restore] + k.queue
    case DryRun(document, epoch) => [Apply(document, epoch)] + k.queue
    case Storing(document, epoch) => [Apply(document, epoch)] + k.queue
    case _ => k.queue
  }

  /** No `apply` was called in this epoch. */
  predicate Unheard(arrivals: set<(string, nat)>, epoch: nat) {
    forall a :: a in arrivals ==> a.1 != epoch
  }

  predicate CallsOk(k: Keeper, timely: bool) {
    && TasksOk(Pending(k), k.arrivals, k.epoch, k.confirmed, timely)
    && (forall a :: a in k.arrivals ==> a.1 <= k.epoch)
    && (k.confirmed ==> !Unheard(k.arrivals, k.epoch))
  }

  lemma FirstTaskDone(tasks: seq<Task>, arrivals: set<(string, nat)>, epoch: nat, confirmed: bool, timely: bool)
    requires tasks != [] && TasksOk(tasks, arrivals, epoch, confirmed, timely)
    ensures TasksOk(tasks[1..], arrivals, epoch, confirmed, timely)
    ensures tasks[0].Apply? && tasks[0].epoch == epoch ==> TasksOk(tasks[1..], arrivals, epoch, true, timely)
  {
    forall i: nat | i < |tasks[1..]|
      ensures TaskOk(tasks[1..][i], arrivals, epoch, confirmed, timely)
      ensures tasks[0].Apply? && tasks[0].epoch == epoch ==> TaskOk(tasks[1..][i], arrivals, epoch, true, timely)
    {
      assert tasks[1..][i] == tasks[i + 1] && InOrder(tasks[0], tasks[i + 1], epoch, timely);
    }
  }

  /** The keeper's record of calls once `added` is called, and whether all restores are timely then. */
  function ArrivalsWith(arrivals: set<(string, nat)>, epoch: nat, added: Task): set<(string, nat)> {
    if added.Apply? then arrivals + {(added.document.digest, epoch)} else arrivals
  }

  lemma TaskAdded(tasks: seq<Task>, arrivals: set<(string, nat)>, epoch: nat, confirmed: bool, timely: bool, added: Task)
    requires TasksOk(tasks, arrivals, epoch, confirmed, timely) && (added.Apply? ==> added.epoch == epoch)
    requires confirmed ==> !Unheard(arrivals, epoch)
    ensures
      var stays := timely && (added.Restore? ==> Unheard(arrivals, epoch));
      TasksOk(tasks + [added], ArrivalsWith(arrivals, epoch, added), epoch, confirmed, stays)
  {
    var all, stays := tasks + [added], timely && (added.Restore? ==> Unheard(arrivals, epoch));
    forall i: nat | i < |tasks|
      ensures InOrder(all[i], added, epoch, stays)
      ensures TaskOk(all[i], ArrivalsWith(arrivals, epoch, added), epoch, confirmed, stays)
    {
      assert all[i] == tasks[i] && TaskOk(tasks[i], arrivals, epoch, confirmed, timely);
    }
    forall i: nat, j: nat | i < j < |tasks|
      ensures InOrder(all[i], all[j], epoch, stays)
    {
      assert InOrder(tasks[i], tasks[j], epoch, timely);
    }
  }

  lemma EpochEnds(tasks: seq<Task>, arrivals: set<(string, nat)>, epoch: nat, confirmed: bool, timely: bool)
    requires TasksOk(tasks, arrivals, epoch, confirmed, timely)
    ensures TasksOk(tasks, arrivals, epoch + 1, false, timely)
  {
    assert forall i: nat :: i < |tasks| ==> TaskOk(tasks[i], arrivals, epoch, confirmed, timely);
    assert forall i: nat, j: nat :: i < j < |tasks| ==> InOrder(tasks[i], tasks[j], epoch, timely);
  }

  /** Whether all restores are still timely after a step. */
  predicate StaysTimely(k: Keeper, p: Step, timely: bool) {
    timely && (p.CallRestore? ==> Unheard(k.arrivals, k.epoch))
  }

  lemma CallKeepsCalls(k: Keeper, timely: bool, task: Task)
    requires CallsOk(k, timely) && (task.Apply? ==> task.epoch == k.epoch)
    ensures
      var stays := timely && (task.Restore? ==> Unheard(k.arrivals, k.epoch));
      CallsOk(Enqueue(k, task).(arrivals := ArrivalsWith(k.arrivals, k.epoch, task)), stays)
  {
    hide TasksOk;
    TaskAdded(Pending(k), k.arrivals, k.epoch, k.confirmed, timely, task);
    assert Pending(Enqueue(k, task)) == Pending(k) + [task];
    if k.confirmed {
      var a :| a in k.arrivals && a.1 == k.epoch;
      assert a in ArrivalsWith(k.arrivals, k.epoch, task);
    }
  }

  lemma CheckKeepsCalls(k: Keeper, timely: bool)
    requires CallsOk(k, timely)
    ensures CallsOk(CallCheck(k), timely)
  {
    CallKeepsCalls(k, timely, Check);
    hide TasksOk;
  }

  lemma ResetKeepsCalls(k: Keeper, timely: bool)
    requires CallsOk(k, timely)
    ensures CallsOk(ResetConfirmation(k), timely)
  {
    EpochEnds(Pending(k), k.arrivals, k.epoch, k.confirmed, timely);
    hide TasksOk;
  }

  lemma ConfirmKeepsCalls(k: Keeper, k': Keeper, timely: bool)
    requires CallsOk(k, timely) && Pending(k) != [] && Pending(k)[0].Apply? && Pending(k') == Pending(k)[1..]
    requires k'.arrivals == k.arrivals && k'.epoch == k.epoch
    requires k'.confirmed == (k.confirmed || Pending(k)[0].epoch == k.epoch)
    ensures CallsOk(k', timely)
  {
    FirstTaskDone(Pending(k), k.arrivals, k.epoch, k.confirmed, timely);
    assert TaskOk(Pending(k)[0], k.arrivals, k.epoch, k.confirmed, timely);
    hide TasksOk;
    assert (Pending(k)[0].document.digest, Pending(k)[0].epoch) in k.arrivals;
  }

  lemma DoneKeepsCalls(k: Keeper, k': Keeper, timely: bool)
    requires CallsOk(k, timely) && Pending(k) != [] && Pending(k') == Pending(k)[1..]
    requires k'.arrivals == k.arrivals && k'.epoch == k.epoch && k'.confirmed == k.confirmed
    ensures CallsOk(k', timely)
  {
    FirstTaskDone(Pending(k), k.arrivals, k.epoch, k.confirmed, timely);
    hide TasksOk;
  }

  lemma SameKeepsCalls(k: Keeper, k': Keeper, timely: bool)
    requires CallsOk(k, timely) && Pending(k') == Pending(k)
    requires k'.arrivals == k.arrivals && k'.epoch == k.epoch && k'.confirmed == k.confirmed
    ensures CallsOk(k', timely)
  {
  }

  /** A task that starts is either still to be done, or is done, or used its document already. */
  lemma StartShape(k: Keeper, task: Task)
    requires k.at.Nowhere?
    ensures
      var k' := Start(k, task);
      && k'.arrivals == k.arrivals && k'.epoch == k.epoch && (Pending(k') == k.queue || Pending(k') == [task] + k.queue)
      && (k'.confirmed != k.confirmed ==>
          task.Apply? && Pending(k') == k.queue && k'.confirmed == (k.confirmed || task.epoch == k.epoch))
  {
  }

  lemma BeginKeepsCalls(k: Keeper, timely: bool)
    requires CallsOk(k, timely) && Enabled(k, BeginTask)
    ensures CallsOk(Begin(k), timely)
  {
    hide CallsOk, Start;
    var task, k' := k.queue[0], Begin(k);
    StartShape(k.(queue := k.queue[1..]), task);
    assert [task] + k.queue[1..] == k.queue;
    if k'.confirmed != k.confirmed {
      ConfirmKeepsCalls(k, k', timely);
    } else if Pending(k') == Pending(k) {
      SameKeepsCalls(k, k', timely);
    } else {
      DoneKeepsCalls(k, k', timely);
    }
  }

  lemma LoadingKeepsCalls(k: Keeper, p: Step, timely: bool)
    requires CallsOk(k, timely) && Enabled(k, p) && (p.ReadStored? || p.DryRunStep? || p.StoreStep?)
    ensures CallsOk(KeeperAfter(k, None, p), timely)
  {
    hide CallsOk;
    var k' := KeeperAfter(k, None, p);
    assert Pending(k)[1..] == k.queue;
    if p.DryRunStep? && p.accepted {
      SameKeepsCalls(k, k', timely);
    } else if p.StoreStep? && p.outcome.Written? {
      ConfirmKeepsCalls(k, k', timely);
    } else {
      DoneKeepsCalls(k, k', timely);
    }
  }

  lemma StepKeepsCalls(k: Keeper, table: Option<Listing>, p: Step, timely: bool)
    requires CallsOk(k, timely) && Enabled(k, p)
    ensures CallsOk(KeeperAfter(k, table, p), StaysTimely(k, p, timely))
  {
    hide CallsOk, Unheard, Start, Restored, DryRunDone, StoreDone, Settle, Listed, Wrote, Relisted;
    match p {
      case CallRestore => CallKeepsCalls(k, timely, Restore);
      case CallApplyStep(document) => CallKeepsCalls(k, timely, Apply(document, k.epoch));
      case CallSetServerId(owner) => CallKeepsCalls(k, timely, SetServerId(owner));
      case CallCheckStep => CheckKeepsCalls(k, timely);
      case Reset => ResetKeepsCalls(k, timely);
      case External(_) =>
      case BeginTask => BeginKeepsCalls(k, timely);
      case ReadStored(_) => LoadingKeepsCalls(k, p, timely);
      case DryRunStep(_) => LoadingKeepsCalls(k, p, timely);
      case StoreStep(_) => LoadingKeepsCalls(k, p, timely);
      case _ => SameKeepsCalls(k, KeeperAfter(k, table, p), timely);
    }
  }

  // ---- Confirmation ----

  /** A confirmed document arrived in an `apply` of this epoch. */
  predicate Backed(k: Keeper) {
    k.confirmed && k.document.Some? ==> (k.document.value.digest, k.epoch) in k.arrivals
  }

  /** The keeper is confirmed and the file holds, for its owner, a digest that did not arrive in this epoch. */
  predicate StaleRead(k: Keeper, p: Step) {
    && p.ReadStored? && p.readable && k.confirmed
    && k.stored.Some? && k.stored.value.owner == k.owner && (k.stored.value.document.digest, k.epoch) !in k.arrivals
  }

  lemma StartKeepsBacked(k: Keeper, task: Task)
    requires Backed(k) && TaskOk(task, k.arrivals, k.epoch, k.confirmed, false)
    ensures Backed(Start(k, task))
  {
  }

  /** A step takes the backing away exactly when it is a stale read. */
  lemma StepKeepsBacked(k: Keeper, table: Option<Listing>, p: Step)
    requires CallsOk(k, false) && Backed(k) && Enabled(k, p)
    ensures Backed(KeeperAfter(k, table, p)) <==> !StaleRead(k, p)
  {
    hide Start, Settle, Listed, Wrote, Relisted, InOrder;
    if p.BeginTask? {
      assert TaskOk(k.queue[0], k.arrivals, k.epoch, k.confirmed, false);
      StartKeepsBacked(k.(queue := k.queue[1..]), k.queue[0]);
    } else if p.StoreStep? {
      assert TaskOk(Pending(k)[0], k.arrivals, k.epoch, k.confirmed, false);
    }
  }

  lemma TimelyIsNotStale(k: Keeper, p: Step)
    requires CallsOk(k, true) && Enabled(k, p)
    ensures !StaleRead(k, p)
  {
    if p.ReadStored? {
      assert TaskOk(Pending(k)[0], k.arrivals, k.epoch, k.confirmed, true);
    }
  }

  lemma TimelyOrNot(k: Keeper)
    requires CallsOk(k, true)
    ensures CallsOk(k, false)
  {
    var tasks := Pending(k);
    assert forall i: nat :: i < |tasks| ==> TaskOk(tasks[i], k.arrivals, k.epoch, k.confirmed, true);
    assert forall i: nat, j: nat :: i < j < |tasks| ==> InOrder(tasks[i], tasks[j], k.epoch, true);
  }

  // ---- The retained listing is kept ----

  predicate ListingOk(k: Keeper) {
    SnapshotOk(k) && AwaitOk(k)
  }

  lemma StartKeepsListing(k: Keeper, task: Task)
    requires ListingOk(k) && k.at.Nowhere?
    ensures ListingOk(Start(k, task))
  {
    hide Carries;
    assert task.SetServerId? ==> ListingOk(StartSetServerId(k, task.owner));
  }

  lemma LoadingKeepsListing(k: Keeper, p: Step)
    requires ListingOk(k) && Enabled(k, p) && (p.ReadStored? || p.DryRunStep? || p.StoreStep?)
    ensures ListingOk(KeeperAfter(k, None, p))
  {
    hide Carries;
  }

  lemma SettleKeepsListing(k: Keeper, verified: bool, next: Next)
    requires k.document.Some? ==> k.documentOwner == Some(k.owner)
    requires SnapshotOk(k.(verified := verified))
    ensures ListingOk(Settle(k, verified, next))
  {
  }

  lemma ListedKeepsListing(k: Keeper, listing: Option<Listing>)
    requires ListingOk(k) && k.at.Verifying?
    ensures ListingOk(Listed(k, listing)) && ListingOk(Settle(k, false, k.at.next))
  {
    var looked := k.(seen := k.seen + [listing]);
    SettleKeepsListing(k, false, k.at.next);
    SettleKeepsListing(looked, Intact(k, listing), k.at.next);
    hide Settle;
  }

  lemma WriteKeepsListing(k: Keeper, table: Option<Listing>, p: Step)
    requires ListingOk(k) && Enabled(k, p) && p.WriteStep?
    ensures ListingOk(KeeperAfter(k, table, p))
  {
    SettleKeepsListing(k, false, k.at.next);
    SettleKeepsListing(k.(written := None, seen := []), false, k.at.next);
    hide Settle;
  }

  lemma RelistedKeepsListing(k: Keeper, listing: Option<Listing>)
    requires ListingOk(k) && k.at.Relisting?
    ensures ListingOk(Relisted(k, listing)) && ListingOk(Settle(k, false, k.at.next))
  {
    var looked := k.(seen := k.seen + [listing]);
    SettleKeepsListing(k, false, k.at.next);
    if Carries(listing, Claim(k.owner, KeyOf(k.at.rendered))) {
      SettleKeepsListing(looked.(snapshot := Some(Snapshot(k.owner, KeyOf(k.at.rendered), listing.value))), true, k.at.next);
    } else {
      SettleKeepsListing(looked, false, k.at.next);
    }
    hide Settle;
  }

  lemma StepKeepsListing(k: Keeper, table: Option<Listing>, p: Step)
    requires ListingOk(k) && Enabled(k, p)
    ensures ListingOk(KeeperAfter(k, table, p))
  {
    if p.BeginTask? {
      StartKeepsListing(k.(queue := k.queue[1..]), k.queue[0]);
    } else if p.ReadStored? || p.DryRunStep? || p.StoreStep? {
      LoadingKeepsListing(k, p);
    } else if p.ListStep? {
      ListedKeepsListing(k, table);
    } else if p.WriteStep? {
      WriteKeepsListing(k, table, p);
    } else if p.RelistStep? {
      RelistedKeepsListing(k, table);
    }
    hide Start, Restored, DryRunDone, StoreDone, Listed, Relisted, Wrote, Settle;
  }

  // ---- Every run ----

  /** What holds in every run, and the backing as long as every restore was timely. */
  predicate Inv(k: Keeper, timely: bool) {
    ListingOk(k) && CallsOk(k, timely) && (timely ==> Backed(k))
  }

  lemma StepKeepsInv(k: Keeper, table: Option<Listing>, p: Step, timely: bool)
    requires Inv(k, timely) && Enabled(k, p)
    ensures Inv(KeeperAfter(k, table, p), StaysTimely(k, p, timely))
  {
    hide ListingOk, CallsOk, Backed, KeeperAfter;
    StepKeepsListing(k, table, p);
    StepKeepsCalls(k, table, p, timely);
    if timely {
      TimelyOrNot(k);
      TimelyIsNotStale(k, p);
      StepKeepsBacked(k, table, p);
    }
  }

  predicate AllCalledBefore(tasks: seq<Task>, epoch: nat) {
    forall i :: 0 <= i < |tasks| && tasks[i].Apply? ==> tasks[i].epoch < epoch
  }

  lemma NothingCalledIsLater(tasks: seq<Task>, arrivals: set<(string, nat)>, epoch: nat, confirmed: bool, timely: bool)
    requires TasksOk(tasks, arrivals, epoch, confirmed, timely)
    ensures AllCalledBefore(tasks, epoch + 1)
  {
    hide InOrder;
    assert forall i: nat :: i < |tasks| ==> TaskOk(tasks[i], arrivals, epoch, confirmed, timely);
  }

  /** After a reset nothing is present, and nothing called before it carries the new epoch. */
  lemma ResetStartsAfresh(k: Keeper, timely: bool)
    requires Inv(k, timely)
    ensures
      var k' := ResetConfirmation(k);
      Inv(k', timely) && !Present(k') && Unheard(k'.arrivals, k'.epoch) && AllCalledBefore(Pending(k'), k'.epoch)
  {
    hide TasksOk, ListingOk, Backed, Pending, AllCalledBefore;
    NothingCalledIsLater(Pending(k), k.arrivals, k.epoch, k.confirmed, timely);
    StepKeepsInv(k, None, Reset, timely);
    SamePending(k);
  }

  lemma SamePending(k: Keeper)
    ensures Pending(ResetConfirmation(k)) == Pending(k)
  {
  }

  /** A listing that was taken, at the start of a verification or after the table was replaced. */
  lemma ListingKeepsInv(k: Keeper, listing: Option<Listing>, timely: bool)
    requires Inv(k, timely) && (k.at.Verifying? || k.at.Relisting?)
    ensures k.at.Verifying? ==> Inv(Listed(k, listing), timely)
    ensures k.at.Relisting? ==> Inv(Relisted(k, listing), timely)
  {
    hide Inv, Listed, Relisted, Settle, TableWorkOnly;
    StepKeepsInv(k, listing, if k.at.Verifying? then ListStep(true) else RelistStep(true), timely);
  }

  /** No `apply` was called since the last reset. */
  predicate Unspoken(steps: seq<Step>) {
    steps != [] && !steps[|steps| - 1].Reset? ==> !steps[|steps| - 1].CallApplyStep? && Unspoken(steps[..|steps| - 1])
  }

  /** Every restore is called in an epoch in which no `apply` has been called. */
  predicate RestoresTimely(steps: seq<Step>) {
    steps != [] ==>
      && RestoresTimely(steps[..|steps| - 1])
      && (steps[|steps| - 1].CallRestore? ==> Unspoken(steps[..|steps| - 1]))
  }

  lemma UnheardStep(k: Keeper, table: Option<Listing>, p: Step)
    requires CallsOk(k, false) && Enabled(k, p)
    ensures
      var k' := KeeperAfter(k, table, p);
      p.Reset? || (!p.CallApplyStep? && Unheard(k.arrivals, k.epoch)) ==> Unheard(k'.arrivals, k'.epoch)
  {
    hide Settle, Listed, Wrote, Relisted, TasksOk;
  }

  /** Every run keeps the invariant, with the backing if its restores are timely. */
  lemma {:induction false} RunKeepsInv(start: World, steps: seq<Step>, owner: Owner, stored: Option<Stored>)
    requires start.k == NewKeeper(owner, stored) && Run(start, steps).Some?
    ensures Inv(Run(start, steps).value.k, RestoresTimely(steps)) && CallsOk(Run(start, steps).value.k, false)
    ensures Unspoken(steps) ==> Unheard(Run(start, steps).value.k.arrivals, Run(start, steps).value.k.epoch)
  {
    if steps != [] {
      hide Inv, CallsOk, Unheard, Enabled, KeeperAfter, TableAfter;
      var before, p := steps[..|steps| - 1], steps[|steps| - 1];
      RunKeepsInv(start, before, owner, stored);
      var w := Run(start, before).value;
      StepKeepsInv(w.k, w.table, p, RestoresTimely(before));
      StepKeepsCalls(w.k, w.table, p, false);
      UnheardStep(w.k, w.table, p);
      if !RestoresTimely(steps) {
        WeakerIsKept(After(w, p).k, StaysTimely(w.k, p, RestoresTimely(before)));
      }
    }
  }

  lemma WeakerIsKept(k: Keeper, timely: bool)
    requires Inv(k, timely)
    ensures Inv(k, false)
  {
    if timely {
      TimelyOrNot(k);
    }
  }

  /** What `present` promises about the table. */
  predicate Installed(k: Keeper)
    requires k.document.Some?
  {
    var claim := Claim(k.owner, Digest(k.document.value.digest));
    && k.written == Some(claim) && k.snapshot.Some?
    && k.seen != [] && k.seen[0] == Some(k.snapshot.value.listing) && k.seen[|k.seen| - 1] == k.seen[0]
    && Carries(k.seen[0], claim)
    && !k.at.Installing? && !k.at.Relisting?
  }

  lemma PresentIsInstalled(k: Keeper)
    requires ListingOk(k) && Present(k)
    ensures Installed(k)
  {
  }

  /** While the table is being replaced nothing is retained, so `present` is false. */
  lemma WritingIsAbsent(k: Keeper, timely: bool)
    requires Inv(k, timely) && (k.at.Installing? || k.at.Relisting?)
    ensures k.snapshot.None? && !Present(k)
  {
  }

  /**
   * Whenever `present` holds, in every run, the keeper's last table write rendered
   * exactly the current document's digest for the current owner, the retained
   * listing is the first one taken after it, and so is the last one the keeper
   * took. If every restore was called in an epoch without an `apply`, that digest
   * arrived in an `apply` of the current epoch.
   */
  lemma PresentMeansConfirmedAndInstalled(start: World, steps: seq<Step>, owner: Owner, stored: Option<Stored>)
    requires start.k == NewKeeper(owner, stored) && Run(start, steps).Some?
    requires Present(Run(start, steps).value.k)
    ensures
      var k := Run(start, steps).value.k;
      && Installed(k)
      && (RestoresTimely(steps) ==> (k.document.value.digest, k.epoch) in k.arrivals)
  {
    hide CallsOk, ListingOk, RestoresTimely, Installed;
    RunKeepsInv(start, steps, owner, stored);
    PresentIsInstalled(Run(start, steps).value.k);
  }

  /** No step of the run is a stale read. */
  ghost predicate NoStaleRead(start: World, steps: seq<Step>)
    requires Run(start, steps).Some?
  {
    steps != [] ==>
      && NoStaleRead(start, steps[..|steps| - 1])
      && !StaleRead(Run(start, steps[..|steps| - 1]).value.k, steps[|steps| - 1])
  }

  /** The document was backed all the way through the run. */
  ghost predicate AlwaysBacked(start: World, steps: seq<Step>)
    requires Run(start, steps).Some?
  {
    Backed(Run(start, steps).value.k) && (steps != [] ==> AlwaysBacked(start, steps[..|steps| - 1]))
  }

  /** In every run a confirmed document is one of this epoch throughout exactly when no restore reads a stale file. */
  lemma {:induction false} BackedExactly(start: World, steps: seq<Step>, owner: Owner, stored: Option<Stored>)
    requires start.k == NewKeeper(owner, stored) && Run(start, steps).Some?
    ensures AlwaysBacked(start, steps) <==> NoStaleRead(start, steps)
  {
    if steps != [] {
      hide Backed, StaleRead, CallsOk, Enabled, KeeperAfter, TableAfter;
      var before, p := steps[..|steps| - 1], steps[|steps| - 1];
      BackedExactly(start, before, owner, stored);
      RunKeepsInv(start, before, owner, stored);
      var w := Run(start, before).value;
      if AlwaysBacked(start, before) {
        StepKeepsBacked(w.k, w.table, p);
      }
    }
  }

  // ---- A refused document ----

  /** All an `apply` leaves behind when the dry run refuses its document, whatever calls and resets came in between. */
  predicate NothingChanged(k: Keeper, k': Keeper) {
    && k'.owner == k.owner && k'.document == k.document && k'.documentOwner == k.documentOwner
    && k'.snapshot == k.snapshot && k'.verified == k.verified && k'.stored == k.stored
    && k'.written == k.written && k'.seen == k.seen
    && (k'.confirmed == k.confirmed || (k'.epoch > k.epoch && !k'.confirmed))
    && k'.epoch >= k.epoch && (k'.epoch == k.epoch ==> k'.confirmed == k.confirmed)
  }

  lemma {:induction false} WaitingChangesNothing(start: World, steps: seq<Step>)
    requires start.k.at.DryRun? && Run(start, steps).Some?
    requires forall i :: 0 <= i < |steps| ==> !steps[i].DryRunStep?
    ensures NothingChanged(start.k, Run(start, steps).value.k) && Run(start, steps).value.k.at == start.k.at
  {
    if steps != [] {
      WaitingChangesNothing(start, steps[..|steps| - 1]);
      WaitingStep(start.k, Run(start, steps[..|steps| - 1]).value, steps[|steps| - 1]);
    }
  }

  lemma WaitingStep(k: Keeper, w: World, p: Step)
    requires NothingChanged(k, w.k) && w.k.at.DryRun? && !p.DryRunStep? && Enabled(w.k, p)
    ensures NothingChanged(k, After(w, p).k) && After(w, p).k.at == w.k.at
  {
  }

  /**
   * From the moment an `apply` starts until nft refuses its document in the dry
   * run, in every interleaving with calls, resets and foreign table writes, the
   * document, its listing and its verification stay as they were, and the
   * confirmation is lost only to a reset.
   */
  lemma RefusedDocumentChangesNothing(start: World, steps: seq<Step>)
    requires start.k.at.Nowhere? && start.k.queue != [] && Begin(start.k).at.DryRun?
    requires Run(World(Begin(start.k), start.table), steps).Some?
    requires forall i :: 0 <= i < |steps| ==> !steps[i].DryRunStep?
    ensures
      var w := Run(World(Begin(start.k), start.table), steps).value;
      w.k.at.DryRun? && NothingChanged(start.k, DryRunDone(w.k, false)) && DryRunDone(w.k, false).at.Nowhere?
  {
    StartingChangesNothing(start.k);
    hide Begin;
    WaitingChangesNothing(World(Begin(start.k), start.table), steps);
  }

  lemma OnlyTheAwaitChanged(k: Keeper, k': Keeper)
    requires k' == k.(queue := k'.queue, at := k'.at)
    ensures NothingChanged(k, k')
  {
  }

  lemma StartingChangesNothing(k: Keeper)
    requires k.at.Nowhere? && k.queue != [] && Begin(k).at.DryRun?
    ensures NothingChanged(k, Begin(k)) && Begin(k).epoch == k.epoch
  {
    hide NothingChanged;
    var task, rest := k.queue[0], k.(queue := k.queue[1..]);
    assert task.Apply? && Begin(k) == rest.(at := DryRun(task.document, task.epoch));
    OnlyTheAwaitChanged(k, Begin(k));
  }
}
