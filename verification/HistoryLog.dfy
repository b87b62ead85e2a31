/** The history log as the object behind its lock, and the loop that drains it onto a link. */
module HistoryLog {
  import opened Common
  import opened OutboxModel
  import opened OutboxSending

  /** The outbox after everything recorded during the first `k` frames. */
  function AfterArrivals(o: Outbox, arrivals: seq<seq<Option<string>>>, k: nat): Outbox
    requires k <= |arrivals|
  {
    if k == 0 then o else PushAll(AfterArrivals(o, arrivals, k - 1), arrivals[k - 1])
  }

  lemma SliceExtends<T>(all: seq<T>, from: nat, to: nat, more: seq<T>)
    requires from <= to && to + |more| <= |all| && more == all[to..to + |more|]
    ensures all[from..to] + more == all[from..to + |more|]
  {
  }

  /** Sending order: numbers only go up, all of them past `after` and none past `position`. */
  predicate InOrder(sent: seq<Record>, after: nat, position: nat) {
    && (forall i :: 0 <= i < |sent| ==> after < sent[i].seqNo <= position)
    && (forall i, j :: 0 <= i < j < |sent| ==> sent[i].seqNo < sent[j].seqNo)
  }

  /** Every record the outbox still holds between the two positions was sent. */
  predicate NothingSkipped(pending: seq<Record>, sent: seq<Record>, after: nat, position: nat) {
    forall i :: 0 <= i < |pending| && after < pending[i].seqNo <= position ==> pending[i] in sent
  }

  /** A batch continues where the position stands and ends at a number the outbox holds. */
  lemma BatchContinues(o: Outbox, position: nat)
    requires Contiguous(o) && NextBatch(o, position) != []
    ensures
      var batch, first := NextBatch(o, position), o.nextSeq - |o.pending|;
      var start := Covered(o.pending, position);
      && start + |batch| <= |o.pending|
      && (forall i :: 0 <= i < |batch| ==> batch[i].seqNo == first + start + i)
      && position < first + start && (start > 0 ==> first + start - 1 <= position)
      && Covered(o.pending, batch[|batch| - 1].seqNo) == start + |batch|
  {
    BatchIsNext(o, position);
    CoveredSplits(o.pending, position);
    hide NextBatch;
    var batch, start := NextBatch(o, position), Covered(o.pending, position);
    assert forall i :: 0 <= i < |batch| ==> batch[i] == o.pending[start + i];
    CoveredExactly(o, batch[|batch| - 1].seqNo);
    assert o.pending[start].seqNo > position;
    assert start > 0 ==> o.pending[start - 1].seqNo <= position;
  }

  lemma BatchInOrder(o: Outbox, sent: seq<Record>, after: nat, position: nat)
    requires Contiguous(o) && NextBatch(o, position) != [] && after <= position && InOrder(sent, after, position)
    ensures
      var batch := NextBatch(o, position);
      InOrder(sent + batch, after, batch[|batch| - 1].seqNo) && position < batch[|batch| - 1].seqNo < o.nextSeq
  {
    BatchContinues(o, position);
    hide NextBatch, Covered, Contiguous;
  }

  lemma BatchSkipsNothing(o: Outbox, sent: seq<Record>, after: nat, position: nat)
    requires Contiguous(o) && NextBatch(o, position) != [] && NothingSkipped(o.pending, sent, after, position)
    ensures
      var batch := NextBatch(o, position);
      NothingSkipped(o.pending, sent + batch, after, batch[|batch| - 1].seqNo)
  {
    BatchContinues(o, position);
    hide NextBatch;
    var batch, start := NextBatch(o, position), Covered(o.pending, position);
    forall i | 0 <= i < |o.pending| && after < o.pending[i].seqNo <= batch[|batch| - 1].seqNo
      ensures o.pending[i] in sent + batch
    {
      if i >= start {
        assert o.pending[i] == batch[i - start];
      }
    }
  }

  lemma {:induction false} ArrivalsAreNewer(o: Outbox, arrived: seq<Option<string>>, i: nat)
    requires Contiguous(o) && i < |PushAll(o, arrived).pending|
    ensures PushAll(o, arrived).pending[i] in o.pending || PushAll(o, arrived).pending[i].seqNo >= o.nextSeq
  {
    if arrived != [] {
      var before := PushAll(o, arrived[..|arrived| - 1]);
      PushAllGrows(o, arrived[..|arrived| - 1]);
      var after := Push(before, arrived[|arrived| - 1]);
      var dropped := if arrived[|arrived| - 1].Some? then |before.pending| + 1 - |after.pending| else 0;
      if i + dropped < |before.pending| {
        ArrivalsAreNewer(o, arrived[..|arrived| - 1], i + dropped);
      }
    }
  }

  lemma ArrivalsSkipNothing(o: Outbox, arrived: seq<Option<string>>, sent: seq<Record>, after: nat, position: nat)
    requires Contiguous(o) && position < o.nextSeq && NothingSkipped(o.pending, sent, after, position)
    ensures NothingSkipped(PushAll(o, arrived).pending, sent, after, position)
  {
    var pending := PushAll(o, arrived).pending;
    forall i | 0 <= i < |pending| && after < pending[i].seqNo <= position
      ensures pending[i] in sent
    {
      ArrivalsAreNewer(o, arrived, i);
    }
  }

  /** How far one call of the sending loop has come. */
  predicate Progress(o: Outbox, sent: nat, position: nat, records: seq<Record>) {
    && sent <= position && (position == sent || position < o.nextSeq)
    && InOrder(records, sent, position) && NothingSkipped(o.pending, records, sent, position)
  }

  /** With nothing arriving, the records sent are one stretch of the outbox. */
  predicate Stretch(o: Outbox, sent: nat, position: nat, records: seq<Record>) {
    && Covered(o.pending, sent) <= Covered(o.pending, position)
    && records == o.pending[Covered(o.pending, sent)..Covered(o.pending, position)]
  }

  lemma NothingSent(o: Outbox, sent: nat)
    ensures Progress(o, sent, sent, []) && Stretch(o, sent, sent, [])
  {
  }

  lemma BatchProgress(o: Outbox, sent: nat, position: nat, records: seq<Record>)
    requires Contiguous(o) && NextBatch(o, position) != [] && Progress(o, sent, position, records)
    ensures
      var batch := NextBatch(o, position);
      var last := batch[|batch| - 1].seqNo;
      && last < o.nextSeq && Progress(o, sent, last, records + batch)
      && Covered(o.pending, position) < Covered(o.pending, last)
  {
    BatchContinues(o, position);
    BatchInOrder(o, records, sent, position);
    BatchSkipsNothing(o, records, sent, position);
    hide NextBatch, Covered, InOrder, NothingSkipped, Contiguous;
  }

  lemma BatchStretches(o: Outbox, sent: nat, position: nat, records: seq<Record>)
    requires Contiguous(o) && NextBatch(o, position) != [] && Stretch(o, sent, position, records)
    ensures
      var batch := NextBatch(o, position);
      Stretch(o, sent, batch[|batch| - 1].seqNo, records + batch)
  {
    var batch, a, b := NextBatch(o, position), Covered(o.pending, sent), Covered(o.pending, position);
    BatchIsNext(o, position);
    SliceExtends(o.pending, a, b, batch);
    assert records + batch == o.pending[a..b + |batch|];
    hide NextBatch, Covered;
    BatchContinues(o, position);
    hide Contiguous;
  }

  lemma RecordsArrived(o: Outbox, arrived: seq<Option<string>>, sent: nat, position: nat, records: seq<Record>)
    requires Contiguous(o) && position < o.nextSeq && Progress(o, sent, position, records)
    ensures Grown(o, PushAll(o, arrived)) && Progress(PushAll(o, arrived), sent, position, records)
  {
    PushAllGrows(o, arrived);
    ArrivalsSkipNothing(o, arrived, records, sent, position);
  }

  function Used(frames: nat, arrivals: seq<seq<Option<string>>>): nat {
    if frames < |arrivals| then frames else |arrivals|
  }

  /** What the sending loop keeps, after the arrivals of the first `used` frames. */
  predicate Sending(
    start: Outbox, o: Outbox, arrivals: seq<seq<Option<string>>>, used: nat, sent: nat, position: nat, records: seq<Record>)
  {
    && used <= |arrivals| && o == AfterArrivals(start, arrivals, used) && Grown(start, o)
    && Progress(o, sent, position, records) && (arrivals == [] ==> Stretch(o, sent, position, records))
  }

  lemma SendingStarts(o: Outbox, arrivals: seq<seq<Option<string>>>, sent: nat)
    requires Contiguous(o)
    ensures Sending(o, o, arrivals, 0, sent, sent, [])
  {
    NothingSent(o, sent);
    hide Progress, Stretch;
  }

  lemma FrameWritten(
    start: Outbox, o: Outbox, arrivals: seq<seq<Option<string>>>, used: nat, sent: nat, position: nat, records: seq<Record>)
    requires Sending(start, o, arrivals, used, sent, position, records) && NextBatch(o, position) != []
    ensures
      var batch := NextBatch(o, position);
      var last := batch[|batch| - 1].seqNo;
      && Covered(o.pending, position) < Covered(o.pending, last)
      && Sending(start, o, arrivals, used, sent, last, records + batch)
      && (used < |arrivals| ==> Sending(start, PushAll(o, arrivals[used]), arrivals, used + 1, sent, last, records + batch))
  {
    var batch := NextBatch(o, position);
    BatchProgress(o, sent, position, records);
    if arrivals == [] {
      BatchStretches(o, sent, position, records);
    }
    if used < |arrivals| {
      RecordsArrived(o, arrivals[used], sent, batch[|batch| - 1].seqNo, records + batch);
    }
    hide NextBatch, Covered, Progress, Stretch, Contiguous, PushAll;
  }

  class HistoryLog {
    var nextSeq: nat
    var pending: seq<Record>
    var dropped: nat

    function View(): Outbox
      reads this
    {
      Outbox(nextSeq, pending, dropped)
    }

    constructor ()
      ensures View() == EMPTY
    {
      nextSeq, pending, dropped := 1, [], 0;
    }

    method Push(encoded: Option<string>)
      modifies this
      ensures View() == OutboxModel.Push(old(View()), encoded)
    {
      if encoded.None? {
        return;
      }
      pending := pending + [Record(nextSeq, encoded.value)];
      nextSeq := nextSeq + 1;
      ghost var all := pending;
      while |pending| > MAX_HISTORY_BACKLOG
        invariant |pending| <= |all| && pending == all[|all| - |pending|..]
        invariant |pending| == |all| || |pending| >= MAX_HISTORY_BACKLOG
        invariant nextSeq == old(nextSeq) + 1 && dropped == old(dropped) + |all| - |pending|
        decreases |pending|
      {
        pending := pending[1..];
        dropped := dropped + 1;
      }
    }

    method Acknowledge(upTo: nat)
      modifies this`pending
      ensures View() == OutboxModel.Acknowledge(old(View()), upTo)
    {
      ghost var gone := 0;
      while pending != [] && pending[0].seqNo <= upTo
        invariant gone <= |old(pending)| && pending == old(pending)[gone..]
        invariant Covered(old(pending), upTo) == gone + Covered(pending, upTo)
        decreases |pending|
      {
        pending := pending[1..];
        gone := gone + 1;
      }
    }

    method CountInFlight(after: nat) returns (inFlight: nat)
      ensures inFlight == Covered(pending, after)
    {
      inFlight := 0;
      while inFlight < |pending| && pending[inFlight].seqNo <= after
        invariant inFlight <= |pending| && Covered(pending, after) == inFlight + Covered(pending[inFlight..], after)
      {
        inFlight := inFlight + 1;
      }
    }

    static method FillFrame(rest: seq<Record>, inFlight: nat) returns (batch: seq<Record>)
      ensures batch == rest[..Fit(rest, inFlight, 0, 0)]
    {
      var bytes: nat, i := 0, 0;
      while i < |rest|
        invariant i <= |rest| && Fit(rest, inFlight, 0, 0) == i + Fit(rest[i..], inFlight, bytes, i)
      {
        var more := bytes + |rest[i].encoded| + 1;
        if i > 0 && (more > MAX_HISTORY_FRAME_BYTES || inFlight + i >= MAX_HISTORY_IN_FLIGHT) {
          break;
        }
        assert rest[i..][1..] == rest[i + 1..];
        bytes, i := more, i + 1;
      }
      batch := rest[..i];
    }

    method Batch(after: nat) returns (batch: seq<Record>)
      ensures batch == NextBatch(View(), after)
    {
      var inFlight := CountInFlight(after);
      if inFlight >= MAX_HISTORY_IN_FLIGHT {
        return [];
      }
      batch := FillFrame(pending[inFlight..], inFlight);
    }

    method PushEach(arrived: seq<Option<string>>)
      modifies this
      ensures View() == PushAll(old(View()), arrived)
    {
      for i := 0 to |arrived|
        invariant View() == PushAll(old(View()), arrived[..i])
      {
        assert arrived[..i + 1][..i] == arrived[..i];
        Push(arrived[i]);
      }
      assert arrived[..|arrived|] == arrived;
    }

    /**
     * `arrivals[k]` is what other tasks record while frame `k` is being written.
     * Records go out once, in order and none skipped, until everything is sent or
     * the window is full; `frames` is the number of frames written.
     */
    method SendHistory(sent: nat, arrivals: seq<seq<Option<string>>>)
      returns (position: nat, records: seq<Record>, frames: nat)
      requires Contiguous(View())
      modifies this
      ensures Sending(old(View()), View(), arrivals, Used(frames, arrivals), sent, position, records)
      ensures NextBatch(View(), position) == []
      ensures LinkOk(Link(old(View()), sent)) ==> LinkOk(Link(View(), position))
    {
      hide Sending, NextBatch, Covered, PushAll, Contiguous, LinkOk;
      position, records, frames := sent, [], 0;
      SendingStarts(View(), arrivals, sent);
      var batch := Batch(position);
      while batch != []
        invariant Sending(old(View()), View(), arrivals, Used(frames, arrivals), sent, position, records)
        invariant batch == NextBatch(View(), position)
        invariant LinkOk(Link(old(View()), sent)) ==> LinkOk(Link(View(), position))
        decreases |arrivals| - Used(frames, arrivals), |pending| - Covered(pending, position)
      {
        FrameWritten(old(View()), View(), arrivals, Used(frames, arrivals), sent, position, records);
        if LinkOk(Link(View(), position)) {
          FrameKeepsOk(Link(View(), position));
          if frames < |arrivals| {
            ArrivalsKeepOk(AfterLink(Link(View(), position), Frame), arrivals[frames]);
          }
        }
        position, records := batch[|batch| - 1].seqNo, records + batch;
        if frames < |arrivals| {
          PushEach(arrivals[frames]);
        }
        frames := frames + 1;
        batch := Batch(position);
      }
    }
  }
}
