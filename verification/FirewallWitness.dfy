/** Why the restore has to come first: a later one can show an old document as confirmed. */
module FirewallWitness {
  import opened Common
  import opened FirewallKeeper

  lemma Extend(start: World, steps: seq<Step>, p: Step) returns (longer: seq<Step>, w: World)
    requires Run(start, steps).Some? && Enabled(Run(start, steps).value.k, p)
    ensures longer == steps + [p] && Run(start, longer) == Some(w) && w == After(Run(start, steps).value, p)
  {
    longer := steps + [p];
    assert longer[..|longer| - 1] == steps;
    w := After(Run(start, steps).value, p);
  }

  function Shown(owner: Owner, document: Document): Listing {
    Listing(Some(Claim(owner, Digest(document.digest))), true, "")
  }

  predicate Idle(k: Keeper) { k.at.Nowhere? && k.queue == [] }

  /** The keeper is at rest with `document` installed and verified. */
  predicate Holds(w: World, owner: Owner, document: Document) {
    && Idle(w.k) && w.k.owner == owner && w.k.document == Some(document) && w.k.documentOwner == Some(owner) && w.k.verified
    && w.table == Some(Shown(owner, document))
    && w.k.snapshot == Some(Snapshot(owner, Digest(document.digest), Shown(owner, document)))
  }

  lemma Install(start: World, steps: seq<Step>) returns (longer: seq<Step>, w: World)
    requires Run(start, steps).Some?
    requires
      var k := Run(start, steps).value.k;
      && k.queue == [] && k.at.Verifying? && k.at.mode.Active? && !k.at.next.Fallback?
      && k.snapshot.None? && k.document.Some? && k.documentOwner == Some(k.owner)
    ensures Run(start, longer) == Some(w)
    ensures
      var k := Run(start, steps).value.k;
      && Holds(w, k.owner, k.document.value)
      && w.k.arrivals == k.arrivals && w.k.epoch == k.epoch && w.k.stored == k.stored && w.k.confirmed == k.confirmed
  {
    hide Run;
    longer, w := Extend(start, steps, ListStep(true));
    longer, w := Extend(start, longer, WriteStep(WriteDone, ""));
    longer, w := Extend(start, longer, RelistStep(true));
  }

  /** `apply` of a document that is not in use, up to the outcome of storing it. */
  lemma Applies(start: World, before: seq<Step>, document: Document, outcome: StoreOutcome)
    returns (steps: seq<Step>, w: World)
    requires Run(start, before).Some?
    requires
      var k := Run(start, before).value.k;
      Idle(k) && k.owner.Server? && (k.document.Some? ==> k.document.value.digest != document.digest)
    ensures Run(start, steps) == Some(w) && w.table == Run(start, before).value.table
    ensures
      var k := Run(start, before).value.k;
      var called := k.(arrivals := k.arrivals + {(document.digest, k.epoch)});
      w.k == StoreDone(called.(at := Storing(document, k.epoch)), outcome)
  {
    hide Run, UseDocument, Confirm;
    var k := Run(start, before).value.k;
    steps, w := Extend(start, before, CallApplyStep(document));
    assert w.k.queue == [Apply(document, k.epoch)];
    steps, w := Extend(start, steps, BeginTask);
    assert w.k.queue == [];
    steps, w := Extend(start, steps, DryRunStep(true));
    steps, w := Extend(start, steps, StoreStep(outcome));
  }

  /** `apply` of a new document on the first connection. */
  lemma FirstApply(start: World, owner: Owner, document: Document) returns (steps: seq<Step>, w: World)
    requires owner.Server? && start == World(NewKeeper(owner, None), None)
    ensures Run(start, steps) == Some(w) && Holds(w, owner, document)
    ensures w.k.epoch == 0 && w.k.arrivals == {(document.digest, 0)}
  {
    assert Run(start, []) == Some(start);
    hide Run, Holds;
    steps, w := Applies(start, [], document, Written);
    steps, w := Install(start, steps);
  }

  /** A second `apply` whose file lands although the write reports a failure. */
  lemma FailedApply(start: World, before: seq<Step>, owner: Owner, document: Document, other: Document)
    returns (steps: seq<Step>, w: World)
    requires Run(start, before).Some? && Holds(Run(start, before).value, owner, document)
    requires owner.Server? && other.digest != document.digest
    ensures Run(start, steps) == Some(w) && Holds(w, owner, document)
    ensures w.k.stored == Some(Stored(owner, other)) && w.k.epoch == Run(start, before).value.k.epoch
    ensures w.k.arrivals == Run(start, before).value.k.arrivals + {(other.digest, w.k.epoch)}
  {
    hide Run;
    steps, w := Applies(start, before, other, WrittenThenFailed);
  }

  /** The Backend confirms the document it believes is current on a new connection. */
  lemma ConfirmAgain(start: World, before: seq<Step>, owner: Owner, document: Document) returns (steps: seq<Step>, w: World)
    requires Run(start, before).Some? && Holds(Run(start, before).value, owner, document) && owner.Server?
    ensures Run(start, steps) == Some(w) && Holds(w, owner, document) && w.k.confirmed
    ensures w.k.stored == Run(start, before).value.k.stored && w.k.epoch == Run(start, before).value.k.epoch + 1
    ensures w.k.arrivals == Run(start, before).value.k.arrivals + {(document.digest, w.k.epoch)}
  {
    hide Run;
    steps, w := Extend(start, before, Reset);
    steps, w := Extend(start, steps, CallApplyStep(document));
    steps, w := Extend(start, steps, BeginTask);
    steps, w := Extend(start, steps, ListStep(true));
  }

  /**
   * A restore after the first connections: `present` holds for a document that no
   * `apply` call of the current epoch carried.
   */
  lemma LateRestoreShowsOldDocument(owner: Owner, document: Document, other: Document) returns (steps: seq<Step>, w: World)
    requires owner.Server? && other.digest != document.digest
    ensures Run(World(NewKeeper(owner, None), None), steps) == Some(w)
    ensures Present(w.k) && w.k.document == Some(other) && (other.digest, w.k.epoch) !in w.k.arrivals
  {
    var start := World(NewKeeper(owner, None), None);
    hide Run;
    steps, w := FirstApply(start, owner, document);
    steps, w := FailedApply(start, steps, owner, document, other);
    steps, w := ConfirmAgain(start, steps, owner, document);
    steps, w := Extend(start, steps, CallRestore);
    steps, w := Extend(start, steps, BeginTask);
    steps, w := Extend(start, steps, ReadStored(true));
    steps, w := Install(start, steps);
  }
}
