/**
 * The keeper as an object whose fields its calls and its tasks, cut at their
 * awaits, change in place. Every call and every stretch between two awaits keeps
 * `Valid`, which is what `IsPresent` owes its meaning to.
 */
module GuestFirewall {
  import opened Common
  import opened FirewallKeeper
  import opened FirewallConfirmed

  class GuestFirewall {
    var owner: Owner
    var document: Option<Document>
    var documentOwner: Option<Owner>
    var snapshot: Option<Snapshot>
    var verified: bool
    var confirmed: bool
    var epoch: nat
    var queue: seq<Task>
    var pendingCheck: bool
    var at: Await
    var stored: Option<Stored>
    ghost var arrivals: set<(string, nat)>
    ghost var written: Option<Claim>
    ghost var seen: seq<Option<Listing>>
    /** Every restore so far was called in an epoch in which no `apply` had been called. */
    ghost var timely: bool

    ghost function View(): Keeper
      reads this
    {
      Keeper(owner, document, documentOwner, snapshot, verified, confirmed, epoch, stored, at, queue, pendingCheck,
             arrivals, written, seen)
    }

    ghost predicate Valid()
      reads this
    {
      Inv(View(), timely)
    }

    constructor (owner: Owner, stored: Option<Stored>)
      ensures Valid() && timely && View() == NewKeeper(owner, stored)
    {
      this.owner, this.stored := owner, stored;
      document, documentOwner, snapshot := None, None, None;
      verified, confirmed, epoch := false, false, 0;
      queue, pendingCheck, at := [], false, Nowhere;
      arrivals, written, seen, timely := {}, None, [], true;
    }

    /**
     * What the table held at the last write and at the first and last listing
     * since; and that the digest arrived in this epoch if every restore was timely.
     */
    method IsPresent() returns (present: bool)
      requires Valid()
      ensures present == Present(View())
      ensures present ==> Installed(View())
      ensures present && timely ==> (document.value.digest, epoch) in arrivals
    {
      hide CallsOk;
      present := document.Some? && verified && confirmed;
      if present {
        present := snapshot.Some? && snapshot.value.owner == owner && snapshot.value.key == Digest(document.value.digest);
      }
      if present {
        PresentIsInstalled(View());
      }
    }

    // ---- Calls ----

    /** A call alone changes no answer; a late restore may cost the digest its meaning later on. */
    method CallRestore()
      requires Valid()
      modifies this`queue, this`timely
      ensures Valid() && View() == Enqueue(old(View()), Restore)
      ensures Present(View()) == old(Present(View()))
      ensures timely == (old(timely) && Unheard(arrivals, epoch))
    {
      hide Inv;
      StepKeepsInv(View(), None, Step.CallRestore, timely);
      queue := queue + [Restore];
      timely := timely && Unheard(arrivals, epoch);
    }

    /** The epoch is the one of the call, not the one it will be applied in. */
    method CallApply(document: Document)
      requires Valid()
      modifies this`queue, this`arrivals
      ensures Valid() && View() == FirewallKeeper.CallApply(old(View()), document)
      ensures Present(View()) == old(Present(View()))
    {
      hide Inv;
      StepKeepsInv(View(), None, CallApplyStep(document), timely);
      queue := queue + [Apply(document, epoch)];
      arrivals := arrivals + {(document.digest, epoch)};
    }

    method CallSetServerId(owner: Owner)
      requires Valid()
      modifies this`queue
      ensures Valid() && View() == Enqueue(old(View()), SetServerId(owner))
      ensures Present(View()) == old(Present(View()))
    {
      hide Inv;
      StepKeepsInv(View(), None, Step.CallSetServerId(owner), timely);
      queue := queue + [SetServerId(owner)];
    }

    method CallCheck()
      requires Valid()
      modifies this`queue, this`pendingCheck
      ensures Valid() && View() == FirewallKeeper.CallCheck(old(View()))
      ensures Present(View()) == old(Present(View()))
    {
      hide Inv;
      StepKeepsInv(View(), None, CallCheckStep, timely);
      if !pendingCheck {
        queue := queue + [Check];
        pendingCheck := true;
      }
    }

    /** Nothing called before, waiting or under way, can confirm in the new epoch. */
    method Reset()
      requires Valid()
      modifies this`epoch, this`confirmed
      ensures Valid() && View() == ResetConfirmation(old(View()))
      ensures !Present(View()) && Unheard(arrivals, epoch)
      ensures AllCalledBefore(Pending(View()), epoch)
    {
      hide Inv, Present, Unheard, Pending, AllCalledBefore;
      ResetStartsAfresh(View(), timely);
      epoch := epoch + 1;
      confirmed := false;
    }

    // ---- Tasks ----

    method UseDocument(document: Option<Document>, owner: Option<Owner>)
      modifies this`document, this`documentOwner, this`snapshot, this`verified
      ensures View() == FirewallKeeper.UseDocument(old(View()), document, owner)
    {
      this.document, documentOwner := document, owner;
      snapshot, verified := None, false;
    }

    method Confirm(epoch: nat)
      modifies this`confirmed, this`at
      ensures View() == FirewallKeeper.Confirm(old(View()), epoch)
      ensures (old(confirmed) ==> confirmed) && (confirmed ==> old(confirmed) || epoch == this.epoch)
    {
      if epoch == this.epoch {
        confirmed := true;
      }
      at := Verifying(Active, Finish);
    }

    method BeginTask()
      requires at.Nowhere? && queue != []
      requires Valid()
      modifies this`queue, this`at, this`pendingCheck, this`confirmed
      modifies this`owner, this`document, this`documentOwner, this`snapshot, this`verified
      ensures Valid() && View() == Begin(old(View()))
    {
      hide Inv;
      StepKeepsInv(View(), None, Step.BeginTask, timely);
      var task := queue[0];
      queue := queue[1..];
      match task {
        case Restore => at := Reading;
        case Apply(document, epoch) => BeginApply(document, epoch);
        case SetServerId(owner) => BeginSetServerId(owner);
        case Check =>
          pendingCheck := false;
          at := Verifying(Passive, Finish);
      }
    }

    method BeginApply(document: Document, epoch: nat)
      modifies this`confirmed, this`at
      ensures View() == StartApply(old(View()), document, epoch)
      ensures owner.Unknown? ==> View() == old(View())
      ensures confirmed && !old(confirmed) ==>
        epoch == this.epoch && this.document.Some? && this.document.value.digest == document.digest && documentOwner == Some(owner)
      ensures !owner.Unknown? && !at.DryRun? ==> this.document.Some? && this.document.value.digest == document.digest
    {
      if owner.Unknown? {
        return;
      }
      if this.document.None? || this.document.value.digest != document.digest || documentOwner != Some(owner) {
        at := DryRun(document, epoch);
      } else {
        Confirm(epoch);
      }
    }

    method BeginSetServerId(owner: Owner)
      modifies this`owner, this`document, this`documentOwner, this`snapshot, this`verified, this`at
      ensures View() == StartSetServerId(old(View()), owner)
      ensures owner == old(this.owner) ==> View() == old(View())
      ensures owner != old(this.owner) ==>
        this.owner == owner && at == Verifying(Active, Finish) && (document.Some? ==> documentOwner == Some(owner))
    {
      if owner == this.owner {
        return;
      }
      this.owner := owner;
      if documentOwner != Some(owner) {
        UseDocument(None, None);
      }
      at := Verifying(Active, Finish);
    }

    method AfterRead(readable: bool)
      requires at.Reading?
      requires Valid()
      modifies this`document, this`documentOwner, this`snapshot, this`verified, this`at
      ensures Valid() && View() == Restored(old(View()), readable)
      ensures old(Backed(View())) ==> (Backed(View()) <==> !StaleRead(old(View()), ReadStored(readable)))
    {
      hide CallsOk, ListingOk;
      WeakerIsKept(View(), timely);
      if Backed(View()) {
        StepKeepsBacked(View(), None, ReadStored(readable));
      }
      hide Inv, Backed, StaleRead;
      StepKeepsInv(View(), None, ReadStored(readable), timely);
      if !readable || stored.None? || stored.value.owner != owner {
        UseDocument(None, None);
      } else {
        UseDocument(Some(stored.value.document), Some(stored.value.owner));
      }
      at := Verifying(Active, RestoreResult);
    }

    method AfterDryRun(accepted: bool)
      requires at.DryRun?
      requires Valid()
      modifies this`at
      ensures Valid() && View() == DryRunDone(old(View()), accepted)
      ensures !accepted ==> NothingChanged(old(View()), View()) && at.Nowhere?
      ensures accepted ==> Pending(View()) == old(Pending(View()))
    {
      hide Inv;
      StepKeepsInv(View(), None, DryRunStep(accepted), timely);
      at := if accepted then Storing(at.document, at.epoch) else Nowhere;
    }

    method AfterStore(outcome: StoreOutcome)
      requires at.Storing?
      requires Valid()
      modifies this`stored, this`document, this`documentOwner, this`snapshot, this`verified, this`confirmed, this`at
      ensures Valid() && View() == StoreDone(old(View()), outcome)
      ensures !outcome.Written? ==> Present(View()) == old(Present(View()))
    {
      hide Inv;
      StepKeepsInv(View(), None, StoreStep(outcome), timely);
      var Storing(document, epoch) := at;
      if !outcome.NotWritten? {
        stored := Some(Stored(owner, document));
      }
      if outcome.Written? {
        UseDocument(Some(document), Some(owner));
        Confirm(epoch);
      } else {
        at := Nowhere;
      }
    }

    method StartInstall(document: Option<Document>, next: Next)
      modifies this`snapshot, this`at
      ensures View() == FirewallKeeper.StartInstall(old(View()), document, next)
    {
      snapshot := None;
      at := Installing(document, next);
    }

    method Settle(verified: bool, next: Next)
      modifies this`verified, this`at, this`snapshot
      ensures View() == FirewallKeeper.Settle(old(View()), verified, next)
      ensures this.verified ==> verified && at.Nowhere?
      ensures next.RestoreResult? && !verified && document.Some? ==> at == Installing(None, Fallback) && snapshot.None?
    {
      this.verified, at := verified && !next.Fallback?, Nowhere;
      if next.RestoreResult? && !verified && document.Some? {
        StartInstall(None, Fallback);
      }
    }

    method AfterList(listing: Option<Listing>)
      requires at.Verifying?
      requires Valid()
      modifies this`seen, this`verified, this`at, this`snapshot
      ensures Valid() && View() == Listed(old(View()), listing)
    {
      hide Inv, Foreign, Carries, FirewallKeeper.Settle, FirewallKeeper.StartInstall, TableWorkOnly;
      ListingKeepsInv(View(), listing, timely);
      var Verifying(mode, next) := at;
      seen := seen + [listing];
      var key := KeyOf(document);
      if listing.Some? && snapshot.Some? && snapshot.value.owner == owner && snapshot.value.key == key
        && snapshot.value.listing == listing.value {
        Settle(true, next);
      } else if mode.Passive? && Foreign(owner, listing) {
        Settle(false, next);
      } else {
        StartInstall(document, next);
      }
    }

    method AfterWrite()
      requires at.Installing?
      requires Valid()
      modifies this`written, this`seen, this`at
      ensures Valid() && View() == Wrote(old(View()))
      ensures !Present(View())
    {
      WritingIsAbsent(View(), timely);
      hide Inv;
      StepKeepsInv(View(), None, WriteStep(WriteDone, ""), timely);
      written, seen := Some(Claim(owner, KeyOf(at.rendered))), [];
      at := Relisting(at.rendered, at.next);
    }

    method AfterRelist(listing: Option<Listing>)
      requires at.Relisting?
      requires Valid()
      modifies this`seen, this`verified, this`at, this`snapshot
      ensures Valid() && View() == Relisted(old(View()), listing)
    {
      hide Inv, FirewallKeeper.Settle, TableWorkOnly;
      ListingKeepsInv(View(), listing, timely);
      var key, next := KeyOf(at.rendered), at.next;
      seen := seen + [listing];
      if Carries(listing, Claim(owner, key)) {
        snapshot := Some(Snapshot(owner, key, listing.value));
        Settle(true, next);
      } else {
        Settle(false, next);
      }
    }

    /** The `catch` of a verification; `lost` says whether a failing write may have replaced the table. */
    method AfterError(ghost lost: bool)
      requires at.Verifying? || at.Installing? || at.Relisting?
      requires Valid() && (lost ==> at.Installing?)
      modifies this`seen, this`written, this`verified, this`at, this`snapshot
      ensures Valid() && !Present(View())
      ensures View() ==
        FirewallKeeper.Settle(if lost then old(View()).(written := None, seen := []) else old(View()), false, old(at.next))
    {
      hide Inv, TableWorkOnly;
      if at.Verifying? {
        StepKeepsInv(View(), None, ListStep(false), timely);
      } else if at.Installing? {
        StepKeepsInv(View(), None, WriteStep(if lost then WriteLost else WriteRefused, ""), timely);
      } else {
        StepKeepsInv(View(), None, RelistStep(false), timely);
      }
      if lost {
        written, seen := None, [];
      }
      Settle(false, at.next);
    }
  }
}
