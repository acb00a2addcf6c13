/**
 * PileupQueue: the visitor the windowing engine calls with each finalized
 * position. It keeps a FIFO of tuples and a one-shot watermark,
 * StartPosition: a position below the watermark is dropped without its tuple
 * being built, and the first position that is kept disarms the watermark by
 * setting it to -1.
 */
module PileupQueues {
  import opened Wrappers
  import opened PileupTypes
  import PileupStats

  /** The queue's contents and watermark as a value. */
  datatype QueueState = QueueState(pileups: seq<PileupTuple>, startPosition: int)

  /** The state after a visit and whether the visit raised. */
  datatype Step = Step(state: QueueState, outcome: Outcome<Error>)

  /** What Visit does to the queue. */
  function VisitSpec(s: QueueState, p: PileupPosition): Step {
    if p.position < s.startPosition then Step(s, Pass)
    else match PileupStats.Stats(p)
      case Failure(e) => Step(s, Fail(e))
      case Success(t) => Step(QueueState(s.pileups + [t], -1), Pass)
  }

  /** The engine visiting a batch of positions in order; an exception stops the batch. */
  function DeliverSpec(s: QueueState, batch: seq<PileupPosition>): Step
    decreases |batch|
  {
    if |batch| == 0 then Step(s, Pass)
    else
      var step := VisitSpec(s, batch[0]);
      if step.outcome.Fail? then step else DeliverSpec(step.state, batch[1..])
  }

  /** The tuples of a batch of well-formed positions, in order. */
  function Tuples(batch: seq<PileupPosition>): (ts: seq<PileupTuple>)
    requires forall j :: 0 <= j < |batch| ==> PileupStats.Stats(batch[j]).Success?
    ensures |ts| == |batch|
  {
    if |batch| == 0 then [] else [PileupStats.Stats(batch[0]).value] + Tuples(batch[1..])
  }

  /** Index of the first position in `batch` at or above `w`, or |batch|. */
  function FirstAtOrAbove(batch: seq<PileupPosition>, w: int): (k: nat)
    ensures k <= |batch|
    ensures forall j :: 0 <= j < k ==> batch[j].position < w
    ensures k < |batch| ==> batch[k].position >= w
  {
    if |batch| == 0 then 0
    else if batch[0].position >= w then 0
    else 1 + FirstAtOrAbove(batch[1..], w)
  }

  /**
   * A position below the watermark leaves the queue as it was and raises
   * nothing, even when its observations are malformed: its tuple is never built.
   */
  lemma BelowWatermarkDiscarded(s: QueueState, p: PileupPosition)
    requires p.position < s.startPosition
    ensures VisitSpec(s, p) == Step(s, Pass)
  {
  }

  /** A kept position is appended at the back and disarms the watermark. */
  lemma AcceptedDisarms(s: QueueState, p: PileupPosition)
    requires p.position >= s.startPosition && PileupStats.Stats(p).Success?
    ensures VisitSpec(s, p) == Step(QueueState(s.pileups + [PileupStats.Stats(p).value], -1), Pass)
  {
  }

  /**
   * A batch only ever appends to the queue, and leaves the watermark where it
   * was or disarmed.
   */
  lemma {:induction false} DeliverAppends(s: QueueState, batch: seq<PileupPosition>)
    ensures var r := DeliverSpec(s, batch).state;
      |s.pileups| <= |r.pileups| && r.pileups[..|s.pileups|] == s.pileups &&
      (r.startPosition == s.startPosition || r.startPosition == -1)
    decreases |batch|
  {
    if |batch| > 0 {
      var step := VisitSpec(s, batch[0]);
      if step.outcome.Pass? {
        DeliverAppends(step.state, batch[1..]);
        var r := DeliverSpec(s, batch).state;
        assert r.pileups[..|step.state.pileups|][..|s.pileups|] == r.pileups[..|s.pileups|];
      }
    }
  }

  /**
   * A batch whose first position is at or above the watermark: every position
   * is appended, in order, and the watermark ends disarmed.
   */
  lemma {:induction false} DeliverAccepting(s: QueueState, batch: seq<PileupPosition>)
    requires |batch| > 0 && batch[0].position >= s.startPosition
    requires forall j :: 0 <= j < |batch| ==> batch[j].position >= -1
    requires forall j :: 0 <= j < |batch| ==> PileupStats.Stats(batch[j]).Success?
    ensures DeliverSpec(s, batch) == Step(QueueState(s.pileups + Tuples(batch), -1), Pass)
    decreases |batch|
  {
    var t := PileupStats.Stats(batch[0]).value;
    var next := QueueState(s.pileups + [t], -1);
    assert DeliverSpec(s, batch) == DeliverSpec(next, batch[1..]) by {
      AcceptedDisarms(s, batch[0]);
    }
    if |batch| > 1 {
      DeliverAccepting(next, batch[1..]);
    }
    assert next.pileups + Tuples(batch[1..]) == s.pileups + Tuples(batch) by {
      assert Tuples(batch) == [t] + Tuples(batch[1..]);
    }
  }

  /** With the watermark disarmed (-1), every non-negative position of a batch is appended, in order. */
  lemma DeliverDisarmed(s: QueueState, batch: seq<PileupPosition>)
    requires s.startPosition == -1
    requires forall j :: 0 <= j < |batch| ==> batch[j].position >= 0
    requires forall j :: 0 <= j < |batch| ==> PileupStats.Stats(batch[j]).Success?
    ensures DeliverSpec(s, batch) == Step(QueueState(s.pileups + Tuples(batch), -1), Pass)
  {
    if |batch| > 0 {
      DeliverAccepting(s, batch);
    }
  }

  /**
   * The watermark over a whole batch of non-negative positions: the positions
   * before the first one at or above the watermark are dropped (malformed or
   * not), that one and every later one is appended in order, and the
   * watermark is disarmed exactly when some position was kept.
   */
  lemma {:induction false} DeliverFromWatermark(s: QueueState, batch: seq<PileupPosition>)
    requires forall j :: 0 <= j < |batch| ==> batch[j].position >= 0
    requires forall j :: FirstAtOrAbove(batch, s.startPosition) <= j < |batch| ==>
      PileupStats.Stats(batch[j]).Success?
    ensures var k := FirstAtOrAbove(batch, s.startPosition);
      DeliverSpec(s, batch) ==
        Step(QueueState(s.pileups + Tuples(batch[k..]), if k < |batch| then -1 else s.startPosition), Pass)
    decreases |batch|
  {
    if |batch| > 0 {
      var k := FirstAtOrAbove(batch, s.startPosition);
      if batch[0].position < s.startPosition {
        assert DeliverSpec(s, batch) == DeliverSpec(s, batch[1..]) by {
          BelowWatermarkDiscarded(s, batch[0]);
        }
        assert k == 1 + FirstAtOrAbove(batch[1..], s.startPosition);
        assert batch[1..][k - 1..] == batch[k..];
        DeliverFromWatermark(s, batch[1..]);
      } else {
        assert batch[k..] == batch;
        DeliverAccepting(s, batch);
      }
    }
  }

  /**
   * Visits only read the watermark and append to the queue, so a batch acts
   * on a non-empty queue as it acts on an empty one with the same watermark,
   * after the tuples already there.
   */
  lemma {:induction false} DeliverFrame(p: seq<PileupTuple>, w: int, batch: seq<PileupPosition>)
    ensures var d := DeliverSpec(QueueState([], w), batch);
      DeliverSpec(QueueState(p, w), batch) == Step(QueueState(p + d.state.pileups, d.state.startPosition), d.outcome)
    decreases |batch|
  {
    if |batch| == 0 {
      assert p + [] == p;
    } else if batch[0].position < w {
      DeliverFrame(p, w, batch[1..]);
    } else if PileupStats.Stats(batch[0]).Failure? {
      assert p + [] == p;
    } else {
      var t := PileupStats.Stats(batch[0]).value;
      assert DeliverSpec(QueueState(p, w), batch) == DeliverSpec(QueueState(p + [t], -1), batch[1..]);
      assert [] + [t] == [t];
      assert DeliverSpec(QueueState([], w), batch) == DeliverSpec(QueueState([t], -1), batch[1..]);
      DeliverFrame(p + [t], -1, batch[1..]);
      DeliverFrame([t], -1, batch[1..]);
      var d := DeliverSpec(QueueState([], -1), batch[1..]);
      assert p + [t] + d.state.pileups == p + ([t] + d.state.pileups);
    }
  }

  /**
   * What a watermark armed at `w` on an empty queue guarantees: the queue is
   * still empty and armed, or its front tuple came from a position at or past
   * `w` and so carries a (1-based) position of at least `w + 1`.
   */
  predicate FrontFromWatermark(s: QueueState, w: int) {
    (s.pileups == [] && s.startPosition == w) || (s.pileups != [] && s.pileups[0].position >= w + 1)
  }

  /** Delivering a batch keeps FrontFromWatermark: later tuples go behind the front. */
  lemma {:induction false} DeliverKeepsFront(s: QueueState, w: int, batch: seq<PileupPosition>)
    requires FrontFromWatermark(s, w)
    ensures FrontFromWatermark(DeliverSpec(s, batch).state, w)
    decreases |batch|
  {
    if |batch| > 0 {
      var step := VisitSpec(s, batch[0]);
      if batch[0].position >= s.startPosition && PileupStats.Stats(batch[0]).Success? {
        var t := PileupStats.Stats(batch[0]).value;
        assert (s.pileups + [t])[0] == if s.pileups == [] then t else s.pileups[0];
        assert FrontFromWatermark(step.state, w);
      }
      if step.outcome.Pass? {
        DeliverKeepsFront(step.state, w, batch[1..]);
      }
    }
  }

  class PileupQueue {
    var pileups: seq<PileupTuple>
    var startPosition: int

    function State(): QueueState
      reads this
    {
      QueueState(pileups, startPosition)
    }

    constructor ()
      ensures pileups == [] && startPosition == -1
    {
      pileups := [];
      startPosition := -1;
    }

    method Visit(pileupData: PileupPosition) returns (outcome: Outcome<Error>)
      modifies this
      ensures pileupData.position < old(startPosition) ==>
        outcome == Pass && pileups == old(pileups) && startPosition == old(startPosition)
      ensures pileupData.position >= old(startPosition) && PileupStats.Stats(pileupData).Failure? ==>
        outcome == Fail(PileupStats.Stats(pileupData).error) &&
        pileups == old(pileups) && startPosition == old(startPosition)
      ensures pileupData.position >= old(startPosition) && PileupStats.Stats(pileupData).Success? ==>
        outcome == Pass && pileups == old(pileups) + [PileupStats.Stats(pileupData).value] && startPosition == -1
      ensures Step(State(), outcome) == VisitSpec(old(State()), pileupData)
    {
      // Below the watermark: no tuple is built.
      if pileupData.position < startPosition {
        return Pass;
      }
      var r := PileupStats.CreatePileupTuple(pileupData);
      if r.Failure? {
        return Fail(r.error);
      }
      pileups := pileups + [r.value];
      // A kept tuple disarms the watermark.
      startPosition := -1;
      outcome := Pass;
    }

    method Clear()
      modifies this
      ensures pileups == [] && startPosition == old(startPosition)
    {
      pileups := [];
    }

    /** The engine calling Visit for each finalized position of a batch, in order. */
    method Deliver(batch: seq<PileupPosition>) returns (outcome: Outcome<Error>)
      modifies this
      ensures Step(State(), outcome) == DeliverSpec(old(State()), batch)
    {
      var i := 0;
      while i < |batch|
        invariant 0 <= i <= |batch|
        invariant DeliverSpec(old(State()), batch) == DeliverSpec(State(), batch[i..])
      {
        assert batch[i..][1..] == batch[i + 1..];
        outcome := Visit(batch[i]);
        if outcome.Fail? {
          return;
        }
        i := i + 1;
      }
      outcome := Pass;
    }
  }
}
