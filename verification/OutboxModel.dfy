/** The connection-history outbox: bounded, acknowledged by prefix, sent in frames with an in-flight window. */
module OutboxModel {
  import opened Common

  const MAX_HISTORY_BACKLOG: nat := 8192
  const MAX_HISTORY_FRAME_BYTES: nat := 256 * 1024
  const MAX_HISTORY_IN_FLIGHT: nat := 2048

  /** A record as it was encoded, one element per byte. */
  datatype Record = Record(seqNo: nat, encoded: string)

  /** What is held for sending, the next number to give out, and the count of records given up. */
  datatype Outbox = Outbox(nextSeq: nat, pending: seq<Record>, dropped: nat)

  const EMPTY := Outbox(1, [], 0)

  /** The pending records are the contiguous run of sequence numbers that ends just before the next one. */
  predicate Contiguous(o: Outbox) {
    && |o.pending| < o.nextSeq && |o.pending| <= MAX_HISTORY_BACKLOG
    && forall i :: 0 <= i < |o.pending| ==> o.pending[i].seqNo == o.nextSeq - |o.pending| + i
  }

  function Newest(o: Outbox): nat
    requires o.nextSeq > 0
  {
    o.nextSeq - 1
  }

  // ---- Changing the outbox ----

  /** A record that does not encode takes no number. */
  function Push(o: Outbox, encoded: Option<string>): Outbox {
    if encoded.None? then o
    else
      var pending := o.pending + [Record(o.nextSeq, encoded.value)];
      var excess := if |pending| > MAX_HISTORY_BACKLOG then |pending| - MAX_HISTORY_BACKLOG else 0;
      Outbox(o.nextSeq + 1, pending[excess..], o.dropped + excess)
  }

  function PushAll(o: Outbox, encoded: seq<Option<string>>): Outbox {
    if encoded == [] then o else Push(PushAll(o, encoded[..|encoded| - 1]), encoded[|encoded| - 1])
  }

  /** How many records at the front have a number up to `upTo`. */
  function Covered(pending: seq<Record>, upTo: nat): (n: nat)
    ensures n <= |pending|
  {
    if pending == [] || pending[0].seqNo > upTo then 0 else 1 + Covered(pending[1..], upTo)
  }

  lemma {:induction false} CoveredSplits(pending: seq<Record>, upTo: nat)
    ensures forall i :: 0 <= i < Covered(pending, upTo) ==> pending[i].seqNo <= upTo
    ensures Covered(pending, upTo) < |pending| ==> pending[Covered(pending, upTo)].seqNo > upTo
  {
    if pending != [] && pending[0].seqNo <= upTo {
      CoveredSplits(pending[1..], upTo);
    }
  }

  function Acknowledge(o: Outbox, upTo: nat): Outbox {
    o.(pending := o.pending[Covered(o.pending, upTo)..])
  }

  lemma PushKeepsContiguous(o: Outbox, encoded: Option<string>)
    requires Contiguous(o)
    ensures Contiguous(Push(o, encoded))
  {
  }

  lemma AcknowledgeKeepsContiguous(o: Outbox, upTo: nat)
    requires Contiguous(o)
    ensures Contiguous(Acknowledge(o, upTo))
  {
  }

  /** With contiguous numbers, the records up to `upTo` are counted by subtraction. */
  lemma CoveredExactly(o: Outbox, upTo: nat)
    requires Contiguous(o)
    ensures
      var first := o.nextSeq - |o.pending|;
      Covered(o.pending, upTo) == if upTo < first then 0 else if upTo >= o.nextSeq then |o.pending| else upTo - first + 1
  {
    CoveredSplits(o.pending, upTo);
    var n := Covered(o.pending, upTo);
    assert n > 0 ==> o.pending[n - 1].seqNo <= upTo;
  }

  // ---- Conservation ----

  datatype Step = PushStep(encoded: Option<string>) | AckStep(upTo: nat)

  /** Why a record left: an acknowledgement, or the push of a newer record into a full outbox. */
  datatype Departure = Acked(upTo: nat) | Overflowed(newer: nat)

  function After(o: Outbox, p: Step): Outbox {
    match p
    case PushStep(encoded) => Push(o, encoded)
    case AckStep(upTo) => Acknowledge(o, upTo)
  }

  function Run(steps: seq<Step>): Outbox {
    if steps == [] then EMPTY else After(Run(steps[..|steps| - 1]), steps[|steps| - 1])
  }

  /** What a step adds to everything ever pushed. */
  function Added(p: Step): seq<string> {
    if p.PushStep? && p.encoded.Some? then [p.encoded.value] else []
  }

  /** Everything ever pushed; the record numbered `n` is element `n - 1`. */
  function Pushed(steps: seq<Step>): seq<string> {
    if steps == [] then [] else Pushed(steps[..|steps| - 1]) + Added(steps[|steps| - 1])
  }

  function Repeat(d: Departure, n: nat): (ds: seq<Departure>)
    ensures |ds| == n && forall i :: 0 <= i < n ==> ds[i] == d
  {
    if n == 0 then [] else Repeat(d, n - 1) + [d]
  }

  function Cause(o: Outbox, p: Step): Departure {
    if p.PushStep? then Overflowed(o.nextSeq) else Acked(p.upTo)
  }

  /** The records a step takes out of the outbox, all from its front. */
  function Left(o: Outbox, p: Step): nat {
    match p
    case PushStep(encoded) =>
      if encoded.Some? && |o.pending| >= MAX_HISTORY_BACKLOG then |o.pending| + 1 - MAX_HISTORY_BACKLOG else 0
    case AckStep(upTo) => Covered(o.pending, upTo)
  }

  /** The departures so far, in the order of the records' numbers. */
  function Departures(steps: seq<Step>): seq<Departure> {
    if steps == [] then []
    else
      var o, p := Run(steps[..|steps| - 1]), steps[|steps| - 1];
      Departures(steps[..|steps| - 1]) + Repeat(Cause(o, p), Left(o, p))
  }

  function Drops(departures: seq<Departure>): nat {
    if departures == [] then 0
    else Drops(departures[..|departures| - 1]) + if departures[|departures| - 1].Overflowed? then 1 else 0
  }

  /** An acknowledgement that was received and covers the record, or an overflow by a record a whole backlog newer. */
  predicate Justified(steps: seq<Step>, number: nat, d: Departure) {
    match d
    case Acked(upTo) => number <= upTo && AckStep(upTo) in steps
    case Overflowed(newer) => newer == number + MAX_HISTORY_BACKLOG
  }

  lemma {:induction false} DropsOf(departures: seq<Departure>, n: nat, d: Departure)
    ensures Drops(departures + Repeat(d, n)) == Drops(departures) + if d.Overflowed? then n else 0
  {
    var all := departures + Repeat(d, n);
    if n == 0 {
      assert all == departures;
    } else {
      assert all[..|all| - 1] == departures + Repeat(d, n - 1);
      DropsOf(departures, n - 1, d);
    }
  }

  predicate Holds(o: Outbox, pushed: seq<string>, gone: nat) {
    && Contiguous(o) && o.nextSeq == |pushed| + 1 && gone + |o.pending| == |pushed|
    && forall i :: 0 <= i < |o.pending| ==> o.pending[i] == Record(gone + i + 1, pushed[gone + i])
  }

  lemma PushConserves(o: Outbox, pushed: seq<string>, gone: nat, encoded: Option<string>)
    requires Holds(o, pushed, gone)
    ensures
      var p := PushStep(encoded);
      Holds(Push(o, encoded), pushed + Added(p), gone + Left(o, p)) && Push(o, encoded).dropped == o.dropped + Left(o, p)
  {
    PushKeepsContiguous(o, encoded);
    hide Contiguous;
  }

  lemma AcknowledgeConserves(o: Outbox, pushed: seq<string>, gone: nat, upTo: nat)
    requires Holds(o, pushed, gone)
    ensures Holds(Acknowledge(o, upTo), pushed, gone + Covered(o.pending, upTo))
  {
    AcknowledgeKeepsContiguous(o, upTo);
    hide Contiguous;
  }

  lemma StepConserves(o: Outbox, pushed: seq<string>, gone: nat, p: Step)
    requires Holds(o, pushed, gone)
    ensures Holds(After(o, p), pushed + Added(p), gone + Left(o, p))
    ensures After(o, p).dropped == o.dropped + if p.PushStep? then Left(o, p) else 0
  {
    hide Holds, Push, Covered;
    match p {
      case PushStep(encoded) => PushConserves(o, pushed, gone, encoded);
      case AckStep(upTo) =>
        AcknowledgeConserves(o, pushed, gone, upTo);
        assert pushed + Added(p) == pushed;
    }
  }

  lemma StepJustifies(o: Outbox, pushed: seq<string>, gone: nat, p: Step, number: nat)
    requires Holds(o, pushed, gone) && gone < number <= gone + Left(o, p)
    ensures Justified([p], number, Cause(o, p))
  {
    if p.AckStep? {
      CoveredSplits(o.pending, p.upTo);
      assert o.pending[number - gone - 1].seqNo <= p.upTo;
    }
  }

  /**
   * In every run the outbox is contiguous, holds exactly the records that have not
   * departed, unchanged and in order, and every departure is a covering
   * acknowledgement or a counted drop.
   */
  lemma {:induction false} RecordsAreConserved(steps: seq<Step>)
    ensures Holds(Run(steps), Pushed(steps), |Departures(steps)|)
    ensures Run(steps).dropped == Drops(Departures(steps))
    ensures forall n: nat :: n < |Departures(steps)| ==> Justified(steps, n + 1, Departures(steps)[n])
  {
    if steps != [] {
      hide Contiguous, Holds, Left, Added, After, Repeat;
      var before, p := steps[..|steps| - 1], steps[|steps| - 1];
      RecordsAreConserved(before);
      var o, gone := Run(before), Departures(before);
      StepConserves(o, Pushed(before), |gone|, p);
      DropsOf(gone, Left(o, p), Cause(o, p));
      forall n: nat | n < |Departures(steps)|
        ensures Justified(steps, n + 1, Departures(steps)[n])
      {
        if n < |gone| {
          assert Justified(before, n + 1, gone[n]);
        } else {
          StepJustifies(o, Pushed(before), |gone|, p, n + 1);
        }
      }
    }
  }
}
