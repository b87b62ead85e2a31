/** Sending the outbox over a link, frame by frame, while records keep arriving. */
module OutboxSending {
  import opened Common
  import opened OutboxModel

  // ---- One frame ----

  /** How many records a frame takes: always the first, then as long as the bytes and the window allow. */
  function Fit(rest: seq<Record>, inFlight: nat, bytes: nat, taken: nat): (n: nat)
    ensures n <= |rest| && (rest != [] && taken == 0 ==> n > 0)
    ensures inFlight + taken < MAX_HISTORY_IN_FLIGHT || (taken > 0 && inFlight + taken <= MAX_HISTORY_IN_FLIGHT) ==>
      inFlight + taken + n <= MAX_HISTORY_IN_FLIGHT
  {
    if rest == [] then 0
    else
      var more := bytes + |rest[0].encoded| + 1;
      if taken > 0 && (more > MAX_HISTORY_FRAME_BYTES || inFlight + taken >= MAX_HISTORY_IN_FLIGHT) then 0
      else 1 + Fit(rest[1..], inFlight, more, taken + 1)
  }

  /** The stretch of pending records the next frame carries, given the last number sent; may be empty. */
  function NextBatch(o: Outbox, after: nat): seq<Record> {
    var inFlight := Covered(o.pending, after);
    if inFlight >= MAX_HISTORY_IN_FLIGHT then []
    else o.pending[inFlight..inFlight + Fit(o.pending[inFlight..], inFlight, 0, 0)]
  }

  lemma BatchIsNext(o: Outbox, after: nat)
    ensures
      var start, batch := Covered(o.pending, after), NextBatch(o, after);
      start + |batch| <= |o.pending| && batch == o.pending[start..start + |batch|]
  {
  }

  function Size(batch: seq<Record>): nat {
    if batch == [] then 0 else Size(batch[..|batch| - 1]) + |batch[|batch| - 1].encoded| + 1
  }

  lemma {:induction false} SizeCons(r: Record, batch: seq<Record>)
    ensures Size([r] + batch) == |r.encoded| + 1 + Size(batch)
  {
    var all := [r] + batch;
    if batch == [] {
      assert all[..0] == [];
    } else {
      assert all[..|all| - 1] == [r] + batch[..|batch| - 1];
      SizeCons(r, batch[..|batch| - 1]);
    }
  }

  lemma {:induction false} FitFits(rest: seq<Record>, inFlight: nat, bytes: nat, taken: nat)
    requires taken > 0
    ensures
      var n := Fit(rest, inFlight, bytes, taken);
      && (n == 0 || bytes + Size(rest[..n]) <= MAX_HISTORY_FRAME_BYTES)
      && (n < |rest| ==>
            || bytes + Size(rest[..n]) + |rest[n].encoded| + 1 > MAX_HISTORY_FRAME_BYTES
            || inFlight + taken + n >= MAX_HISTORY_IN_FLIGHT)
  {
    var n := Fit(rest, inFlight, bytes, taken);
    if n > 0 {
      FitFits(rest[1..], inFlight, bytes + |rest[0].encoded| + 1, taken + 1);
      assert rest[..n] == [rest[0]] + rest[1..][..n - 1];
      SizeCons(rest[0], rest[1..][..n - 1]);
    }
  }

  /** A frame keeps to the byte limit unless one record alone is over it, and stops only at a limit or the end. */
  lemma FrameIsFull(o: Outbox, after: nat)
    requires NextBatch(o, after) != []
    ensures
      var batch, start := NextBatch(o, after), Covered(o.pending, after);
      var next := start + |batch|;
      && (|batch| > 1 ==> Size(batch) <= MAX_HISTORY_FRAME_BYTES)
      && next <= MAX_HISTORY_IN_FLIGHT
      && (next < |o.pending| && next < MAX_HISTORY_IN_FLIGHT ==>
            Size(batch) + |o.pending[next].encoded| + 1 > MAX_HISTORY_FRAME_BYTES)
  {
    var start := Covered(o.pending, after);
    var rest, batch := o.pending[start..], NextBatch(o, after);
    var tail, n := rest[1..], |batch| - 1;
    assert n == Fit(tail, start, |rest[0].encoded| + 1, 1);
    FitFits(tail, start, |rest[0].encoded| + 1, 1);
    hide Fit;
    assert batch == [rest[0]] + tail[..n];
    SizeCons(rest[0], tail[..n]);
    assert n < |tail| ==> tail[n] == o.pending[start + |batch|];
  }

  // ---- Where sending stops ----

  /** Nothing is sent exactly when everything was, or the window is full. */
  lemma StopsExactly(o: Outbox, after: nat)
    ensures NextBatch(o, after) == [] <==>
      Covered(o.pending, after) == |o.pending| || Covered(o.pending, after) >= MAX_HISTORY_IN_FLIGHT
  {
  }

  /** What arriving records do to an outbox: its numbers and its oldest record only move up. */
  predicate Grown(o: Outbox, o': Outbox) {
    && Contiguous(o') && o'.nextSeq >= o.nextSeq && o'.nextSeq - |o'.pending| >= o.nextSeq - |o.pending|
    && |o'.pending| >= |o.pending|
  }

  lemma {:induction false} PushAllGrows(o: Outbox, arrived: seq<Option<string>>)
    requires Contiguous(o)
    ensures Grown(o, PushAll(o, arrived))
  {
    if arrived != [] {
      PushAllGrows(o, arrived[..|arrived| - 1]);
      PushKeepsContiguous(PushAll(o, arrived[..|arrived| - 1]), arrived[|arrived| - 1]);
    }
  }

  // ---- A link ----

  /** `sent` is the last number sent on this link. */
  datatype Link = Link(o: Outbox, sent: nat)

  datatype LinkStep = Arrive(encoded: Option<string>) | Frame | AckFrame(upTo: nat) | Restart

  function AfterLink(l: Link, p: LinkStep): Link {
    match p
    case Arrive(encoded) => l.(o := Push(l.o, encoded))
    case Frame =>
      var batch := NextBatch(l.o, l.sent);
      if batch == [] then l else l.(sent := batch[|batch| - 1].seqNo)
    case AckFrame(upTo) => Link(Acknowledge(l.o, upTo), if upTo > l.sent then upTo else l.sent)
    case Restart => l.(sent := 0)
  }

  function RunLink(start: Link, steps: seq<LinkStep>): Link {
    if steps == [] then start else AfterLink(RunLink(start, steps[..|steps| - 1]), steps[|steps| - 1])
  }

  /** The Backend acknowledges only numbers that were given out. */
  predicate Honest(start: Link, steps: seq<LinkStep>) {
    forall i :: 0 <= i < |steps| && steps[i].AckFrame? ==> steps[i].upTo < RunLink(start, steps[..i]).o.nextSeq
  }

  predicate LinkOk(l: Link) {
    && Contiguous(l.o) && l.sent < l.o.nextSeq
    && Covered(l.o.pending, l.sent) <= MAX_HISTORY_IN_FLIGHT
  }

  lemma FrameKeepsOk(l: Link)
    requires LinkOk(l) && NextBatch(l.o, l.sent) != []
    ensures LinkOk(AfterLink(l, Frame))
  {
    FrameIsFull(l.o, l.sent);
    var next := Covered(l.o.pending, l.sent) + |NextBatch(l.o, l.sent)|;
    assert AfterLink(l, Frame).sent == l.o.pending[next - 1].seqNo;
    CoveredExactly(l.o, l.o.pending[next - 1].seqNo);
  }

  lemma ArrivalKeepsOk(l: Link, encoded: Option<string>)
    requires LinkOk(l)
    ensures LinkOk(l.(o := Push(l.o, encoded)))
  {
    PushKeepsContiguous(l.o, encoded);
    CoveredExactly(l.o, l.sent);
    CoveredExactly(Push(l.o, encoded), l.sent);
    hide Covered;
  }

  lemma AckKeepsOk(l: Link, upTo: nat)
    requires LinkOk(l) && upTo < l.o.nextSeq
    ensures LinkOk(AfterLink(l, AckFrame(upTo)))
  {
    var l' := AfterLink(l, AckFrame(upTo));
    AcknowledgeKeepsContiguous(l.o, upTo);
    CoveredExactly(l.o, l.sent);
    CoveredExactly(l.o, upTo);
    CoveredExactly(l'.o, l'.sent);
    hide Covered;
  }

  lemma LinkStepKeepsOk(l: Link, p: LinkStep)
    requires LinkOk(l) && (p.AckFrame? ==> p.upTo < l.o.nextSeq)
    ensures LinkOk(AfterLink(l, p))
  {
    CoveredExactly(l.o, 0);
    hide NextBatch, Covered;
    match p {
      case Arrive(encoded) => ArrivalKeepsOk(l, encoded);
      case AckFrame(upTo) => AckKeepsOk(l, upTo);
      case Frame =>
        if NextBatch(l.o, l.sent) != [] {
          FrameKeepsOk(l);
        }
      case Restart =>
    }
  }

  lemma PrefixOfHonest(start: Link, steps: seq<LinkStep>, n: nat)
    requires Honest(start, steps) && n <= |steps|
    ensures Honest(start, steps[..n])
  {
    hide RunLink;
    assert forall i :: 0 <= i < n ==> steps[..n][..i] == steps[..i];
  }

  lemma {:induction false} HonestStaysOk(start: Link, steps: seq<LinkStep>)
    requires LinkOk(start) && Honest(start, steps)
    ensures LinkOk(RunLink(start, steps))
  {
    if steps != [] {
      hide LinkOk, AfterLink;
      var before := steps[..|steps| - 1];
      PrefixOfHonest(start, steps, |before|);
      HonestStaysOk(start, before);
      LinkStepKeepsOk(RunLink(start, before), steps[|steps| - 1]);
    }
  }

  /** Once a number that was not given out is acknowledged, the link counts it as sent. */
  lemma DishonestBreaks(start: Link, steps: seq<LinkStep>, i: nat)
    requires i < |steps| && steps[i].AckFrame? && steps[i].upTo >= RunLink(start, steps[..i]).o.nextSeq
    ensures !LinkOk(RunLink(start, steps[..i + 1]))
  {
    assert steps[..i + 1][..i] == steps[..i];
    assert RunLink(start, steps[..i + 1]) == AfterLink(RunLink(start, steps[..i]), steps[i]);
  }

  lemma FreshLinkOk(o: Outbox)
    requires Contiguous(o)
    ensures LinkOk(Link(o, 0))
  {
    CoveredExactly(o, 0);
  }

  /**
   * At every moment of a run a link has at most the window in flight and counts
   * as sent only numbers given out, exactly when the Backend acknowledges only
   * numbers given out.
   */
  lemma LinkStaysOk(steps: seq<LinkStep>, o: Outbox)
    requires Contiguous(o)
    ensures (forall i :: 0 <= i <= |steps| ==> LinkOk(RunLink(Link(o, 0), steps[..i]))) <==> Honest(Link(o, 0), steps)
  {
    hide LinkOk, RunLink;
    var start := Link(o, 0);
    FreshLinkOk(o);
    if Honest(start, steps) {
      forall i | 0 <= i <= |steps|
        ensures LinkOk(RunLink(start, steps[..i]))
      {
        PrefixOfHonest(start, steps, i);
        HonestStaysOk(start, steps[..i]);
      }
    } else {
      var i :| 0 <= i < |steps| && steps[i].AckFrame? && steps[i].upTo >= RunLink(start, steps[..i]).o.nextSeq;
      DishonestBreaks(start, steps, i);
    }
  }

  // ---- A resend ----

  lemma {:induction false} ArrivalsKeepOk(l: Link, arrived: seq<Option<string>>)
    requires LinkOk(l)
    ensures LinkOk(l.(o := PushAll(l.o, arrived)))
  {
    hide LinkOk, Push;
    if arrived != [] {
      ArrivalsKeepOk(l, arrived[..|arrived| - 1]);
      ArrivalKeepsOk(l.(o := PushAll(l.o, arrived[..|arrived| - 1])), arrived[|arrived| - 1]);
    }
  }

  /**
   * A resend from the start, while records kept arriving, ends no earlier than the
   * position before it exactly when that position is among the records of one
   * window; which it is whenever it was one the outbox had given out and the
   * window held.
   */
  lemma ResendNeverBehind(o: Outbox, o': Outbox, before: nat, position: nat)
    requires Contiguous(o) && o.pending != []
    requires Grown(o, o') && NextBatch(o', position) == [] && position < o'.nextSeq
    ensures
      var window := if |o'.pending| < MAX_HISTORY_IN_FLIGHT then |o'.pending| else MAX_HISTORY_IN_FLIGHT;
      LinkOk(Link(o', position)) ==> (before <= position <==> before < o'.nextSeq - |o'.pending| + window)
    ensures before > Newest(o') ==> position < before
    ensures LinkOk(Link(o, before)) ==> before <= position
  {
    CoveredExactly(o, before);
    CoveredExactly(o', position);
  }
}
