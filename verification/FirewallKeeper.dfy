/**
 * The agent's egress-firewall keeper. A task starts when the one called before it
 * is over; it is cut at every await, so calls, `resetConfirmation` and changes to the
 * nft table by anyone else can fall between any two of its steps.
 */
module FirewallKeeper {
  import opened Common

  datatype Owner = Unknown | Server(id: string)

  datatype Key = FailClosed | Digest(digest: string)

  datatype Document = Document(digest: string, rules: string)

  /** What the table comment claims. */
  datatype Claim = Claim(owner: Owner, key: Key)

  /** A table as nft lists it: the claim its comment carries, whether it hooks prerouting, and the rest. */
  datatype Listing = Listing(claim: Option<Claim>, hooksPrerouting: bool, rest: string)

  datatype Snapshot = Snapshot(owner: Owner, key: Key, listing: Listing)

  datatype Stored = Stored(owner: Owner, document: Document)

  datatype Mode = Active | Passive

  datatype Task =
    | Restore
    | Apply(document: Document, epoch: nat)
    | SetServerId(owner: Owner)
    | Check

  /** What a task does once its verification has settled. */
  datatype Next = Finish | RestoreResult | Fallback

  /** The await a task is suspended at. */
  datatype Await =
    | Nowhere
    | Reading
    | DryRun(document: Document, epoch: nat)
    | Storing(document: Document, epoch: nat)
    | Verifying(mode: Mode, next: Next)
    | Installing(rendered: Option<Document>, next: Next)
    | Relisting(rendered: Option<Document>, next: Next)

  /**
   * The keeper's fields, the stored file, its queue, and what happened so
   * far: `arrivals` are the digests of all `apply` calls with the epoch of the
   * call, `written` the keeper's last successful table write and `seen` the
   * listings it took since.
   */
  datatype Keeper = Keeper(
    owner: Owner, document: Option<Document>, documentOwner: Option<Owner>, snapshot: Option<Snapshot>,
    verified: bool, confirmed: bool, epoch: nat, stored: Option<Stored>,
    at: Await, queue: seq<Task>, checkPending: bool,
    arrivals: set<(string, nat)>, written: Option<Claim>, seen: seq<Option<Listing>>)

  function KeyOf(document: Option<Document>): Key {
    if document.Some? then Digest(document.value.digest) else FailClosed
  }

  /** Verified, confirmed, and the retained listing is of the current document for the current owner. */
  predicate Present(k: Keeper) {
    && k.document.Some? && k.verified && k.confirmed
    && k.snapshot.Some? && k.snapshot.value.owner == k.owner
    && k.snapshot.value.key == Digest(k.document.value.digest)
  }

  function NewKeeper(owner: Owner, stored: Option<Stored>): Keeper {
    Keeper(owner, None, None, None, false, false, 0, stored, Nowhere, [], false, {}, None, [])
  }

  // ---- Calls ----

  function Enqueue(k: Keeper, task: Task): Keeper {
    k.(queue := k.queue + [task])
  }

  function CallApply(k: Keeper, document: Document): Keeper {
    Enqueue(k, Apply(document, k.epoch)).(arrivals := k.arrivals + {(document.digest, k.epoch)})
  }

  /** At most one check waits in the queue. */
  function CallCheck(k: Keeper): Keeper {
    if k.checkPending then k else Enqueue(k, Check).(checkPending := true)
  }

  function ResetConfirmation(k: Keeper): Keeper {
    k.(epoch := k.epoch + 1, confirmed := false)
  }

  // ---- Task steps ----

  function UseDocument(k: Keeper, document: Option<Document>, owner: Option<Owner>): Keeper {
    k.(document := document, documentOwner := owner, snapshot := None, verified := false)
  }

  /** Only a call of the current epoch confirms; none takes a confirmation back. */
  function Confirm(k: Keeper, epoch: nat): Keeper {
    k.(confirmed := k.confirmed || epoch == k.epoch, at := Verifying(Active, Finish))
  }

  /** Working on the table changes neither the document nor its confirmation, nor anything another task will need. */
  predicate TableWorkOnly(k: Keeper, k': Keeper) {
    && k'.owner == k.owner && k'.document == k.document && k'.documentOwner == k.documentOwner
    && k'.confirmed == k.confirmed && k'.epoch == k.epoch && k'.arrivals == k.arrivals
    && k'.stored == k.stored && k'.queue == k.queue && k'.checkPending == k.checkPending
    && !k'.at.Reading? && !k'.at.DryRun? && !k'.at.Storing?
  }

  function StartInstall(k: Keeper, document: Option<Document>, next: Next): Keeper {
    k.(snapshot := None, at := Installing(document, next))
  }

  /** Ends a verification; after a restore that failed, the table without a document is installed. */
  function Settle(k: Keeper, verified: bool, next: Next): (k': Keeper)
    ensures TableWorkOnly(k, k')
  {
    match next
    case Finish => k.(verified := verified, at := Nowhere)
    case RestoreResult =>
      if verified || k.document.None? then k.(verified := verified, at := Nowhere)
      else StartInstall(k.(verified := false), None, Fallback)
    case Fallback => k.(verified := false, at := Nowhere)
  }

  /** A digest already in use skips dry run and store, and is confirmed and verified at once. */
  function StartApply(k: Keeper, document: Document, epoch: nat): Keeper {
    if k.owner.Unknown? then k
    else if k.document.None? || k.document.value.digest != document.digest || k.documentOwner != Some(k.owner)
    then k.(at := DryRun(document, epoch))
    else Confirm(k, epoch)
  }

  /** A new owner keeps the document only if it belongs to that owner. */
  function StartSetServerId(k: Keeper, owner: Owner): Keeper {
    if owner == k.owner then k
    else
      var renamed := k.(owner := owner, at := Verifying(Active, Finish));
      if k.documentOwner != Some(owner) then UseDocument(renamed, None, None) else renamed
  }

  function Start(k: Keeper, task: Task): Keeper {
    match task
    case Restore => k.(at := Reading)
    case Apply(document, epoch) => StartApply(k, document, epoch)
    case SetServerId(owner) => StartSetServerId(k, owner)
    case Check => k.(checkPending := false, at := Verifying(Passive, Finish))
  }

  function Begin(k: Keeper): Keeper
    requires k.at.Nowhere? && k.queue != []
  {
    Start(k.(queue := k.queue[1..]), k.queue[0])
  }

  function Restored(k: Keeper, readable: bool): Keeper {
    var loaded :=
      if readable && k.stored.Some? && k.stored.value.owner == k.owner
      then UseDocument(k, Some(k.stored.value.document), Some(k.owner))
      else UseDocument(k, None, None);
    loaded.(at := Verifying(Active, RestoreResult))
  }

  function DryRunDone(k: Keeper, accepted: bool): Keeper
    requires k.at.DryRun?
  {
    k.(at := if accepted then Storing(k.at.document, k.at.epoch) else Nowhere)
  }

  /** The file is renamed into place before the directory is synced, so a failing write may still have replaced it. */
  datatype StoreOutcome = NotWritten | WrittenThenFailed | Written

  function StoreDone(k: Keeper, outcome: StoreOutcome): Keeper
    requires k.at.Storing?
  {
    var saved := if outcome.NotWritten? then k else k.(stored := Some(Stored(k.owner, k.at.document)));
    if outcome.Written? then Confirm(UseDocument(saved, Some(k.at.document), Some(k.owner)), k.at.epoch)
    else saved.(at := Nowhere)
  }

  /** A table another known server claims. */
  predicate Foreign(owner: Owner, listing: Option<Listing>) {
    && listing.Some? && listing.value.claim.Some?
    && listing.value.claim.value.owner != Unknown && listing.value.claim.value.owner != owner
  }

  predicate Intact(k: Keeper, listing: Option<Listing>) {
    listing.Some? && k.snapshot == Some(Snapshot(k.owner, KeyOf(k.document), listing.value))
  }

  function Listed(k: Keeper, listing: Option<Listing>): (k': Keeper)
    requires k.at.Verifying?
    ensures TableWorkOnly(k, k')
  {
    var looked := k.(seen := k.seen + [listing]);
    if Intact(k, listing) then Settle(looked, true, k.at.next)
    else if k.at.mode.Passive? && Foreign(k.owner, listing) then Settle(looked, false, k.at.next)
    else StartInstall(looked, k.document, k.at.next)
  }

  function Wrote(k: Keeper): (k': Keeper)
    requires k.at.Installing?
    ensures TableWorkOnly(k, k')
  {
    k.(written := Some(Claim(k.owner, KeyOf(k.at.rendered))), seen := [], at := Relisting(k.at.rendered, k.at.next))
  }

  predicate Carries(listing: Option<Listing>, claim: Claim) {
    listing.Some? && listing.value.claim == Some(claim) && listing.value.hooksPrerouting
  }

  function Relisted(k: Keeper, listing: Option<Listing>): (k': Keeper)
    requires k.at.Relisting?
    ensures TableWorkOnly(k, k')
  {
    var key := KeyOf(k.at.rendered);
    var looked := k.(seen := k.seen + [listing]);
    if Carries(listing, Claim(k.owner, key))
    then Settle(looked.(snapshot := Some(Snapshot(k.owner, key, listing.value))), true, k.at.next)
    else Settle(looked, false, k.at.next)
  }

  // ---- Runs ----

  /** An nft write that reports an error may still have replaced the table. */
  datatype WriteOutcome = WriteRefused | WriteLost | WriteDone

  datatype Step =
    | CallRestore
    | CallApplyStep(document: Document)
    | CallSetServerId(owner: Owner)
    | CallCheckStep
    | Reset
    | External(table: Option<Listing>)
    | BeginTask
    | ReadStored(readable: bool)
    | DryRunStep(accepted: bool)
    | StoreStep(outcome: StoreOutcome)
    | ListStep(ok: bool)
    | WriteStep(write: WriteOutcome, rest: string)
    | RelistStep(ok: bool)

  /** One keeper and the table. */
  datatype World = World(k: Keeper, table: Option<Listing>)

  predicate Enabled(k: Keeper, p: Step) {
    match p
    case BeginTask => k.at.Nowhere? && k.queue != []
    case ReadStored(_) => k.at.Reading?
    case DryRunStep(_) => k.at.DryRun?
    case StoreStep(_) => k.at.Storing?
    case ListStep(_) => k.at.Verifying?
    case WriteStep(_, _) => k.at.Installing?
    case RelistStep(_) => k.at.Relisting?
    case _ => true
  }

  function KeeperAfter(k: Keeper, table: Option<Listing>, p: Step): Keeper
    requires Enabled(k, p)
  {
    match p
    case CallRestore => Enqueue(k, Restore)
    case CallApplyStep(document) => CallApply(k, document)
    case CallSetServerId(owner) => Enqueue(k, SetServerId(owner))
    case CallCheckStep => CallCheck(k)
    case Reset => ResetConfirmation(k)
    case External(_) => k
    case BeginTask => Begin(k)
    case ReadStored(readable) => Restored(k, readable)
    case DryRunStep(accepted) => DryRunDone(k, accepted)
    case StoreStep(outcome) => StoreDone(k, outcome)
    case ListStep(ok) => if ok then Listed(k, table) else Settle(k, false, k.at.next)
    case WriteStep(write, _) =>
      if write.WriteDone? then Wrote(k)
      else if write.WriteLost? then Settle(k.(written := None, seen := []), false, k.at.next)
      else Settle(k, false, k.at.next)
    case RelistStep(ok) => if ok then Relisted(k, table) else Settle(k, false, k.at.next)
  }

  function TableAfter(k: Keeper, table: Option<Listing>, p: Step): Option<Listing>
    requires Enabled(k, p)
  {
    match p
    case External(changed) => changed
    case WriteStep(write, rest) =>
      if write.WriteRefused? then table
      else Some(Listing(Some(Claim(k.owner, KeyOf(k.at.rendered))), true, rest))
    case _ => table
  }

  function After(w: World, p: Step): World
    requires Enabled(w.k, p)
  {
    World(KeeperAfter(w.k, w.table, p), TableAfter(w.k, w.table, p))
  }

  /** The world after `steps`, or `None` when one of them could not happen. */
  function Run(start: World, steps: seq<Step>): Option<World> {
    if steps == [] then Some(start)
    else
      var before := Run(start, steps[..|steps| - 1]);
      if before.Some? && Enabled(before.value.k, steps[|steps| - 1])
      then Some(After(before.value, steps[|steps| - 1]))
      else None
  }
}
