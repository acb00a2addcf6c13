/**
 * The Python-facing pileup cursor (class Pileup): it owns a BAM reader, a
 * windowing engine and the queue the engine reports to.
 *
 * The reader is an opened file: its reference names, its alignments in file
 * order with a read index, and where BamReader::Jump repositions the read
 * index. The windowing engine is an oracle: given the calls made to it so far,
 * each AddAlignment or Flush call emits a finite sequence of finalized
 * positions, and each is handed to the queue's Visit in order.
 */
module PileupCursor {
  import opened Wrappers
  import opened PileupTypes
  import opened PileupQueues

  /** A call made to the windowing engine. */
  datatype EngineCall = AddAlignment(alignment: Alignment) | Flush

  /** The windowing engine: what one more call emits, given the calls made before it. */
  type Engine = (seq<EngineCall>, EngineCall) -> seq<PileupPosition>

  /**
   * An opened, indexed BAM file: reference names, alignments in file order,
   * and the read index BamReader::Jump(refId, position) leaves the reader at.
   */
  datatype BamFile = BamFile(
    references: seq<string>,
    alignments: seq<Alignment>,
    jumpIndex: (int, int) -> nat)

  /** BamReader::GetReferenceID: the index of the first reference with this name, or -1. */
  function ReferenceId(names: seq<string>, name: string): (id: int)
    ensures -1 <= id < |names|
    ensures id == -1 <==> name !in names
    ensures id >= 0 ==> names[id] == name && name !in names[..id]
  {
    if |names| == 0 then -1
    else if names[0] == name then 0
    else
      var rest := ReferenceId(names[1..], name);
      assert names[1..][..if rest < 0 then 0 else rest] == names[1..if rest < 0 then 1 else rest + 1];
      if rest < 0 then -1 else rest + 1
  }

  /** The engine calls made by feeding these alignments one at a time. */
  function AddCalls(als: seq<Alignment>): (calls: seq<EngineCall>)
    ensures |calls| == |als|
  {
    if |als| == 0 then []
    else AddCalls(als[..|als| - 1]) + [AddAlignment(als[|als| - 1])]
  }

  /**
   * Feeding `als` one at a time to an engine whose history is `calls`,
   * starting from queue state `s`: every batch the engine emits is visited in
   * order, and the first exception stops the feeding.
   */
  function FeedSpec(engine: Engine, calls: seq<EngineCall>, s: QueueState, als: seq<Alignment>): Step {
    if |als| == 0 then Step(s, Pass)
    else
      var prev := FeedSpec(engine, calls, s, als[..|als| - 1]);
      if prev.outcome.Fail? then prev
      else DeliverSpec(prev.state, engine(calls + AddCalls(als[..|als| - 1]), AddAlignment(als[|als| - 1])))
  }

  /** Feeding one more alignment: one more call, and one more batch visited unless feeding already stopped. */
  lemma FeedStep(engine: Engine, calls: seq<EngineCall>, s: QueueState, als: seq<Alignment>, from: nat, to: nat)
    requires from <= to < |als|
    ensures calls + AddCalls(als[from..to]) + [AddAlignment(als[to])] == calls + AddCalls(als[from..to + 1])
    ensures var prev := FeedSpec(engine, calls, s, als[from..to]);
      FeedSpec(engine, calls, s, als[from..to + 1]) ==
        if prev.outcome.Fail? then prev
        else DeliverSpec(prev.state, engine(calls + AddCalls(als[from..to]), AddAlignment(als[to])))
  {
    assert als[from..to + 1][..to - from] == als[from..to];
  }

  /** Feeding no alignments makes no call and leaves the queue as it was. */
  lemma FeedNone(engine: Engine, calls: seq<EngineCall>, s: QueueState, als: seq<Alignment>, i: nat)
    requires i <= |als|
    ensures calls + AddCalls(als[i..i]) == calls
    ensures FeedSpec(engine, calls, s, als[i..i]) == Step(s, Pass)
  {
    assert als[i..i] == [];
  }

  /** Feeding keeps FrontFromWatermark, whatever the engine emits. */
  lemma {:induction false} FeedKeepsFront(engine: Engine, calls: seq<EngineCall>, s: QueueState, w: int, als: seq<Alignment>)
    requires FrontFromWatermark(s, w)
    ensures FrontFromWatermark(FeedSpec(engine, calls, s, als).state, w)
    decreases |als|
  {
    if |als| > 0 {
      var init := als[..|als| - 1];
      FeedKeepsFront(engine, calls, s, w, init);
      var prev := FeedSpec(engine, calls, s, init);
      if prev.outcome.Pass? {
        DeliverKeepsFront(prev.state, w, engine(calls + AddCalls(init), AddAlignment(als[|als| - 1])));
      }
    }
  }

  /** Every tuple lies on reference `refId` before `target`: the tuples Jump discards. */
  predicate BelowTarget(ts: seq<PileupTuple>, refId: int, target: int) {
    forall t :: t in ts ==> t.refId == refId && t.position < target
  }

  /**
   * A run that starts with the watermark at `target` can pop nothing before
   * the target: its first tuple lies past it.
   */
  lemma NothingDropped(s: QueueState, target: int, refId: int, dropped: seq<PileupTuple>, rest: seq<PileupTuple>)
    requires FrontFromWatermark(s, target) && s.pileups == dropped + rest && BelowTarget(dropped, refId, target)
    ensures dropped == []
  {
    HeadBelowTarget(dropped, rest, refId, target);
  }

  /** Tuples Jump discards, followed by anything, start before the target. */
  lemma HeadBelowTarget(dropped: seq<PileupTuple>, rest: seq<PileupTuple>, refId: int, target: int)
    requires BelowTarget(dropped, refId, target)
    ensures dropped != [] ==> (dropped + rest)[0].position < target
  {
    if dropped != [] {
      assert (dropped + rest)[0] == dropped[0] && dropped[0] in dropped;
    }
  }

  /**
   * Every nonempty prefix `als[lo..k]` of `als[lo..hi]`, fed from history
   * `calls` and state `s`, ends without an exception and with only tuples
   * Jump discards.
   */
  ghost predicate PrefixesBelowTarget(engine: Engine, calls: seq<EngineCall>, s: QueueState, als: seq<Alignment>, lo: int, hi: int, refId: int, target: int)
    decreases hi - lo
  {
    hi <= lo ||
    (0 <= lo && hi <= |als| && PrefixesBelowTarget(engine, calls, s, als, lo, hi - 1, refId, target) &&
     FeedSpec(engine, calls, s, als[lo..hi]).outcome.Pass? &&
     BelowTarget(FeedSpec(engine, calls, s, als[lo..hi]).state.pileups, refId, target))
  }

  /** PrefixesBelowTarget of `als[lo..hi]`, prefix by prefix. */
  lemma {:induction false} PrefixesBelow(engine: Engine, calls: seq<EngineCall>, s: QueueState, als: seq<Alignment>, lo: nat, hi: nat, refId: int, target: int)
    requires lo <= hi <= |als| && PrefixesBelowTarget(engine, calls, s, als, lo, hi, refId, target)
    ensures forall k :: lo < k <= hi ==>
      (FeedSpec(engine, calls, s, als[lo..k]).outcome.Pass? &&
       BelowTarget(FeedSpec(engine, calls, s, als[lo..k]).state.pileups, refId, target))
    decreases hi
  {
    if lo < hi {
      PrefixesBelow(engine, calls, s, als, lo, hi - 1, refId, target);
      forall k | lo < k <= hi
        ensures FeedSpec(engine, calls, s, als[lo..k]).outcome.Pass?
        ensures BelowTarget(FeedSpec(engine, calls, s, als[lo..k]).state.pileups, refId, target)
      {
        if k == hi {
          assert PrefixesBelowTarget(engine, calls, s, als, lo, hi, refId, target);
        }
      }
    }
  }

  /** Concatenation regrouped, for the loops that append to two ghost sequences at once. */
  lemma Regroup<T>(a: seq<T>, b: seq<T>, c: seq<T>)
    ensures a + (b + c) == (a + b) + c
  {
  }

  function Min(a: int, b: int): int {
    if a < b then a else b
  }

  class Pileup {
    const queue: PileupQueue
    const engine: Engine
    /** The calls made to the engine so far; they are the engine's state. */
    var calls: seq<EngineCall>
    var reader: BamFile
    var readIndex: nat
    /** The reference names exposed to Python as `refnames`. */
    var refNames: seq<string>

    ghost predicate Valid()
      reads this
    {
      readIndex <= |reader.alignments|
    }

    /** A pileup with no file open: the reader yields nothing and knows no reference. */
    constructor (engine: Engine)
      ensures Valid() && fresh(queue)
      ensures this.engine == engine && calls == []
      ensures queue.pileups == [] && queue.startPosition == -1
      ensures reader.references == [] && reader.alignments == [] && refNames == []
    {
      queue := new PileupQueue();
      this.engine := engine;
      calls := [];
      reader := BamFile([], [], (_, _) => 0);
      readIndex := 0;
      refNames := [];
    }

    /** One call to the engine, whose emitted positions are visited in order. */
    method RunEngine(call: EngineCall) returns (outcome: Outcome<Error>, ghost added: seq<PileupTuple>)
      modifies this`calls, queue
      ensures calls == old(calls) + [call]
      ensures Step(queue.State(), outcome) == DeliverSpec(old(queue.State()), engine(old(calls), call))
      ensures queue.pileups == old(queue.pileups) + added
      ensures queue.startPosition == old(queue.startPosition) || queue.startPosition == -1
    {
      var batch := engine(calls, call);
      calls := calls + [call];
      outcome := queue.Deliver(batch);
      DeliverAppends(old(queue.State()), batch);
      added := queue.pileups[|old(queue.pileups)|..];
    }

    /** Reads the next alignment and adds it to the engine. */
    method Feed() returns (outcome: Outcome<Error>, ghost added: seq<PileupTuple>)
      requires Valid() && readIndex < |reader.alignments|
      modifies this`readIndex, this`calls, queue
      ensures Valid() && readIndex == old(readIndex) + 1
      ensures calls == old(calls) + [AddAlignment(reader.alignments[old(readIndex)])]
      ensures Step(queue.State(), outcome) ==
        DeliverSpec(old(queue.State()), engine(old(calls), AddAlignment(reader.alignments[old(readIndex)])))
      ensures queue.pileups == old(queue.pileups) + added
      ensures queue.startPosition == old(queue.startPosition) || queue.startPosition == -1
    {
      var al := reader.alignments[readIndex];
      readIndex := readIndex + 1;
      outcome, added := RunEngine(AddAlignment(al));
    }

    /**
     * Feed as one step of a feeding run that began at read index `from`, with
     * engine history `calls0` and queue state `s0`: the run so far is
     * `FeedSpec`, with `taken` the tuples already removed from the queue's
     * front, and after this call it is `FeedSpec` of one more alignment.
     */
    method FeedNext(ghost from: nat, ghost calls0: seq<EngineCall>, ghost s0: QueueState, ghost taken: seq<PileupTuple>)
      returns (outcome: Outcome<Error>, ghost added: seq<PileupTuple>)
      requires Valid() && from <= readIndex < |reader.alignments|
      requires calls == calls0 + AddCalls(reader.alignments[from..readIndex])
      requires FeedSpec(engine, calls0, s0, reader.alignments[from..readIndex]) ==
        Step(QueueState(taken + queue.pileups, queue.startPosition), Pass)
      modifies this`readIndex, this`calls, queue
      ensures Valid() && readIndex == old(readIndex) + 1
      ensures calls == calls0 + AddCalls(reader.alignments[from..readIndex])
      ensures FeedSpec(engine, calls0, s0, reader.alignments[from..readIndex]) ==
        Step(QueueState(taken + queue.pileups, queue.startPosition), outcome)
      ensures queue.pileups == old(queue.pileups) + added
      ensures queue.startPosition == old(queue.startPosition) || queue.startPosition == -1
    {
      FeedStep(engine, calls0, s0, reader.alignments, from, readIndex);
      ghost var before, batch := queue.pileups, engine(calls, AddAlignment(reader.alignments[readIndex]));
      DeliverFrame(taken + before, queue.startPosition, batch);
      DeliverFrame(before, queue.startPosition, batch);
      outcome, added := Feed();
      assert taken + queue.pileups == (taken + before) + added;
    }

    /**
     * Pileup::Open after the file and its index were opened: install the
     * file, flush the engine into the queue, empty the queue and publish the
     * reference names. The watermark is left as it was.
     */
    method Open(bamFile: BamFile) returns (outcome: Outcome<Error>)
      modifies this`reader, this`readIndex, this`calls, this`refNames, queue
      ensures Valid() && reader == bamFile && readIndex == 0
      ensures calls == old(calls) + [Flush]
      ensures var flush := DeliverSpec(old(queue.State()), engine(old(calls), Flush));
        && outcome == flush.outcome
        && queue.startPosition == flush.state.startPosition
        && (outcome.Fail? ==> queue.State() == flush.state && refNames == old(refNames))
        && (outcome.Pass? ==> queue.pileups == [] && refNames == bamFile.references)
      ensures engine(old(calls), Flush) == [] ==> queue.startPosition == old(queue.startPosition)
      ensures queue.startPosition == old(queue.startPosition) || queue.startPosition == -1
    {
      reader := bamFile;
      readIndex := 0;
      ghost var added;
      outcome, added := RunEngine(Flush);
      if outcome.Fail? {
        return;
      }
      queue.Clear();
      refNames := reader.references;
    }

    /**
     * The inner loop of Pileup::Jump: pops the front tuples that lie on
     * reference `refId` before `target`; `dropped` is what it popped.
     */
    method DropBefore(refId: int, target: int) returns (ghost dropped: seq<PileupTuple>)
      modifies queue`pileups
      ensures old(queue.pileups) == dropped + queue.pileups
      ensures BelowTarget(dropped, refId, target)
      ensures queue.pileups == [] || queue.pileups[0].refId != refId || queue.pileups[0].position >= target
    {
      dropped := [];
      while queue.pileups != [] && queue.pileups[0].refId == refId && queue.pileups[0].position < target
        invariant old(queue.pileups) == dropped + queue.pileups
        invariant BelowTarget(dropped, refId, target)
        decreases |queue.pileups|
      {
        assert dropped + queue.pileups == (dropped + [queue.pileups[0]]) + queue.pileups[1..];
        dropped := dropped + [queue.pileups[0]];
        queue.pileups := queue.pileups[1..];
      }
    }

    /**
     * One round of the outer loop of Pileup::Jump, entered with an empty
     * queue after a feeding run that has so far delivered and dropped
     * `taken`: feed one alignment (as FeedNext), then pop the front tuples
     * before the target. `delivered` and `dropped` are the run's totals
     * afterwards; `stop` says the front is now on another reference or at or
     * past the target.
     */
    method AdvanceStep(refId: int, target: int, ghost from: nat, ghost calls0: seq<EngineCall>, ghost s0: QueueState, ghost taken: seq<PileupTuple>)
      returns (outcome: Outcome<Error>, stop: bool, ghost delivered: seq<PileupTuple>, ghost dropped: seq<PileupTuple>)
      requires Valid() && from <= readIndex < |reader.alignments| && queue.pileups == []
      requires calls == calls0 + AddCalls(reader.alignments[from..readIndex])
      requires FeedSpec(engine, calls0, s0, reader.alignments[from..readIndex]) ==
        Step(QueueState(taken, queue.startPosition), Pass)
      requires PrefixesBelowTarget(engine, calls0, s0, reader.alignments, from, readIndex, refId, target)
      requires BelowTarget(taken, refId, target)
      modifies this`readIndex, this`calls, queue
      ensures Valid() && reader == old(reader) && readIndex == old(readIndex) + 1
      ensures calls == calls0 + AddCalls(reader.alignments[from..readIndex])
      ensures FeedSpec(engine, calls0, s0, reader.alignments[from..readIndex]) ==
        Step(QueueState(delivered, queue.startPosition), outcome)
      ensures PrefixesBelowTarget(engine, calls0, s0, reader.alignments, from, readIndex - 1, refId, target)
      ensures outcome.Pass? && !stop ==>
        (queue.pileups == [] && delivered == dropped &&
         PrefixesBelowTarget(engine, calls0, s0, reader.alignments, from, readIndex, refId, target))
      ensures outcome.Pass? && stop ==>
        queue.pileups != [] && (queue.pileups[0].refId != refId || queue.pileups[0].position >= target)
      ensures outcome.Fail? ==>
        (from < readIndex &&
         dropped == FeedSpec(engine, calls0, s0, reader.alignments[from..readIndex - 1]).state.pileups)
      ensures delivered == dropped + queue.pileups
      ensures BelowTarget(dropped, refId, target)
      ensures queue.startPosition == old(queue.startPosition) || queue.startPosition == -1
    {
      assert taken + queue.pileups == taken;
      ghost var added;
      outcome, added := FeedNext(from, calls0, s0, taken);
      assert queue.pileups == added;
      stop, delivered, dropped := false, taken + added, taken;
      if outcome.Fail? || queue.pileups == [] {
        return;
      }
      // Pop what lies before the target on the same reference.
      ghost var popped := DropBefore(refId, target);
      Regroup(taken, popped, queue.pileups);
      dropped := taken + popped;
      stop := queue.pileups != [];
    }

    /**
     * The outer loop of Pileup::Jump, entered with an empty queue: feed
     * alignments, dropping the tuples before the target, until the front of
     * the queue is on another reference or at or past the target, the reader
     * is exhausted, or an exception is raised. `delivered` is everything the
     * queue received, `dropped` what was popped. The ghost parameters `from`,
     * `calls0` and `s0` stand for the entry values of `readIndex`, `calls` and
     * the queue state; they are used instead of `old(...)` because they keep
     * the proof much cheaper.
     */
    method Advance(refId: int, target: int, ghost from: nat, ghost calls0: seq<EngineCall>, ghost s0: QueueState)
      returns (outcome: Outcome<Error>, ghost delivered: seq<PileupTuple>, ghost dropped: seq<PileupTuple>)
      requires Valid() && queue.pileups == []
      requires from == readIndex && calls0 == calls && s0 == queue.State()
      modifies this`readIndex, this`calls, queue
      ensures Valid() && from <= readIndex
      ensures calls == calls0 + AddCalls(reader.alignments[from..readIndex])
      ensures FeedSpec(engine, calls0, s0, reader.alignments[from..readIndex]) ==
        Step(QueueState(delivered, queue.startPosition), outcome)
      ensures PrefixesBelowTarget(engine, calls0, s0, reader.alignments, from, readIndex - 1, refId, target)
      ensures outcome.Pass? ==> readIndex == |reader.alignments| || queue.pileups != []
      ensures outcome.Pass? ==> queue.pileups == [] || queue.pileups[0].refId != refId || queue.pileups[0].position >= target
      ensures outcome.Fail? ==>
        (from < readIndex &&
         dropped == FeedSpec(engine, calls0, s0, reader.alignments[from..readIndex - 1]).state.pileups)
      ensures delivered == dropped + queue.pileups
      ensures BelowTarget(dropped, refId, target)
      ensures queue.startPosition == s0.startPosition || queue.startPosition == -1
    {
      outcome, delivered, dropped := Pass, [], [];
      FeedNone(engine, calls0, s0, reader.alignments, from);
      assert s0 == QueueState(delivered, queue.startPosition);
      while readIndex < |reader.alignments|
        invariant Valid() && from <= readIndex
        invariant calls == calls0 + AddCalls(reader.alignments[from..readIndex])
        invariant FeedSpec(engine, calls0, s0, reader.alignments[from..readIndex]) ==
          Step(QueueState(delivered, queue.startPosition), outcome)
        invariant PrefixesBelowTarget(engine, calls0, s0, reader.alignments, from, readIndex, refId, target)
        invariant outcome.Pass? && !outcome.Fail? && queue.pileups == [] && delivered == dropped
        invariant delivered == dropped + queue.pileups
        invariant BelowTarget(dropped, refId, target)
        invariant queue.startPosition == s0.startPosition || queue.startPosition == -1
        decreases |reader.alignments| - readIndex
      {
        var stop;
        outcome, stop, delivered, dropped := AdvanceStep(refId, target, from, calls0, s0, delivered);
        if outcome.Fail? || stop {
          return;
        }
      }
    }

    /**
     * Pileup::Jump to a 1-based position: the reader is repositioned to the
     * 0-based target through the index, the watermark is armed at the
     * target, and alignments are fed until a tuple at or past the target
     * heads the queue. `delivered` is every tuple the queue received after
     * it was cleared, `dropped` those popped from its front.
     */
    method Jump(refName: string, position: int) returns (outcome: Outcome<Error>, ghost delivered: seq<PileupTuple>, ghost dropped: seq<PileupTuple>)
      requires Valid()
      modifies this`readIndex, this`calls, queue
      ensures Valid()
      ensures ReferenceId(reader.references, refName) < 0 ==>
        outcome == Fail(InvalidRefName(refName)) &&
        calls == old(calls) && readIndex == old(readIndex) &&
        queue.pileups == old(queue.pileups) && queue.startPosition == old(queue.startPosition)
      ensures (ReferenceId(reader.references, refName) >= 0 &&
               DeliverSpec(old(queue.State()), engine(old(calls), Flush)).outcome.Fail?) ==>
        var flush := DeliverSpec(old(queue.State()), engine(old(calls), Flush));
        outcome == flush.outcome && queue.State() == flush.state &&
        calls == old(calls) + [Flush] && readIndex == old(readIndex)
      ensures (ReferenceId(reader.references, refName) >= 0 &&
               DeliverSpec(old(queue.State()), engine(old(calls), Flush)).outcome.Pass?) ==>
        var refId := ReferenceId(reader.references, refName);
        var target := position - 1;
        var start := Min(reader.jumpIndex(refId, target), |reader.alignments|);
        && start <= readIndex
        && calls == old(calls) + [Flush] + AddCalls(reader.alignments[start..readIndex])
        && (var f := FeedSpec(engine, old(calls) + [Flush], QueueState([], target), reader.alignments[start..readIndex]);
            outcome == f.outcome && delivered == f.state.pileups && queue.startPosition == f.state.startPosition &&
            dropped == [] && queue.State() == f.state)
        && (queue.pileups == [] || queue.pileups[0].position >= position)
        && (forall k :: start < k < readIndex ==>
              FeedSpec(engine, old(calls) + [Flush], QueueState([], target), reader.alignments[start..k]).outcome.Pass? &&
              BelowTarget(FeedSpec(engine, old(calls) + [Flush], QueueState([], target), reader.alignments[start..k]).state.pileups, refId, target))
      ensures outcome.Pass? ==>
        var refId := ReferenceId(reader.references, refName);
        var target := position - 1;
        var start := Min(reader.jumpIndex(refId, target), |reader.alignments|);
        && refId >= 0
        && start <= readIndex
        && calls == old(calls) + [Flush] + AddCalls(reader.alignments[start..readIndex])
        && (readIndex == |reader.alignments| || queue.pileups != [])
        && (queue.pileups == [] || queue.pileups[0].refId != refId || queue.pileups[0].position >= target)
        && (queue.pileups == [] || queue.pileups[0].position >= position)
        && delivered == dropped + queue.pileups
        && BelowTarget(dropped, refId, target)
        && (queue.startPosition == target || queue.startPosition == -1)
    {
      delivered, dropped := [], [];
      // The caller's position is 1-based, the reader's 0-based.
      var target := position - 1;

      var refId := ReferenceId(reader.references, refName);
      if refId < 0 {
        return Fail(InvalidRefName(refName)), delivered, dropped;
      }

      ghost var added;
      outcome, added := RunEngine(Flush);
      if outcome.Fail? {
        return;
      }
      outcome, delivered, dropped := Seek(refId, target);
    }

    /**
     * What Pileup::Jump does once the flush has passed: empty the queue,
     * reposition the reader through the index, arm the watermark at the
     * 0-based target and run the outer loop (Advance). Because the run
     * starts armed at the target, nothing it delivers lies before it, so
     * nothing is popped.
     */
    method Seek(refId: int, target: int) returns (outcome: Outcome<Error>, ghost delivered: seq<PileupTuple>, ghost dropped: seq<PileupTuple>)
      requires Valid()
      modifies this`readIndex, this`calls, queue
      ensures Valid()
      ensures var start := Min(reader.jumpIndex(refId, target), |reader.alignments|);
        && start <= readIndex
        && calls == old(calls) + AddCalls(reader.alignments[start..readIndex])
        && (var f := FeedSpec(engine, old(calls), QueueState([], target), reader.alignments[start..readIndex]);
            outcome == f.outcome && delivered == f.state.pileups && queue.startPosition == f.state.startPosition &&
            dropped == [] && queue.State() == f.state)
        && (forall k :: start < k < readIndex ==>
              FeedSpec(engine, old(calls), QueueState([], target), reader.alignments[start..k]).outcome.Pass? &&
              BelowTarget(FeedSpec(engine, old(calls), QueueState([], target), reader.alignments[start..k]).state.pileups, refId, target))
      ensures queue.pileups == [] || queue.pileups[0].position >= target + 1
      ensures outcome.Pass? ==> readIndex == |reader.alignments| || queue.pileups != []
      ensures outcome.Pass? ==> queue.pileups == [] || queue.pileups[0].refId != refId || queue.pileups[0].position >= target
      ensures delivered == dropped + queue.pileups
      ensures BelowTarget(dropped, refId, target)
      ensures queue.startPosition == target || queue.startPosition == -1
    {
      queue.Clear();
      var start := Min(reader.jumpIndex(refId, target), |reader.alignments|);
      readIndex := start;
      queue.startPosition := target;
      outcome, delivered, dropped := Advance(refId, target, start, old(calls), QueueState([], target));
      FeedKeepsFront(engine, old(calls), QueueState([], target), target, reader.alignments[start..readIndex]);
      NothingDropped(FeedSpec(engine, old(calls), QueueState([], target), reader.alignments[start..readIndex]).state, target, refId, dropped, queue.pileups);
      if start < readIndex {
        PrefixesBelow(engine, old(calls), QueueState([], target), reader.alignments, start, readIndex - 1, refId, target);
      }
    }

    /**
     * The feeding loop of Pileup::Next: feed one alignment, and keep feeding
     * while the queue is empty. `delivered` is every tuple the queue received.
     * Every shorter feed would have left the queue empty.
     */
    method Fill() returns (outcome: Outcome<Error>, ghost delivered: seq<PileupTuple>)
      requires Valid()
      modifies this`readIndex, this`calls, queue
      ensures Valid() && old(readIndex) <= readIndex
      ensures calls == old(calls) + AddCalls(reader.alignments[old(readIndex)..readIndex])
      ensures Step(queue.State(), outcome) ==
        FeedSpec(engine, old(calls), old(queue.State()), reader.alignments[old(readIndex)..readIndex])
      ensures forall k :: old(readIndex) < k < readIndex ==>
        FeedSpec(engine, old(calls), old(queue.State()), reader.alignments[old(readIndex)..k]).outcome.Pass? &&
        FeedSpec(engine, old(calls), old(queue.State()), reader.alignments[old(readIndex)..k]).state.pileups == []
      ensures queue.pileups == old(queue.pileups) + delivered
      ensures queue.startPosition == old(queue.startPosition) || queue.startPosition == -1
      ensures old(readIndex) < |reader.alignments| ==> old(readIndex) < readIndex
      ensures old(queue.pileups) != [] && old(readIndex) < |reader.alignments| ==> readIndex == old(readIndex) + 1
      ensures outcome.Pass? && readIndex < |reader.alignments| ==> queue.pileups != []
      ensures old(readIndex) == |reader.alignments| ==> outcome.Pass? && readIndex == old(readIndex) && delivered == []
    {
      ghost var als, from, calls0, s0 := reader.alignments, readIndex, calls, queue.State();
      delivered := [];
      while readIndex < |reader.alignments|
        invariant Valid() && from <= readIndex
        invariant calls == calls0 + AddCalls(als[from..readIndex])
        invariant Step(queue.State(), Pass) == FeedSpec(engine, calls0, s0, als[from..readIndex])
        invariant forall k :: from < k <= readIndex ==>
          FeedSpec(engine, calls0, s0, als[from..k]).outcome.Pass? &&
          FeedSpec(engine, calls0, s0, als[from..k]).state.pileups == []
        invariant queue.pileups == s0.pileups + delivered
        invariant from < readIndex ==> queue.pileups == []
        invariant readIndex == from ==> delivered == []
        invariant queue.startPosition == s0.startPosition || queue.startPosition == -1
        decreases |als| - readIndex
      {
        assert [] + queue.pileups == queue.pileups;
        ghost var added;
        outcome, added := FeedNext(from, calls0, s0, []);
        assert [] + queue.pileups == queue.pileups;
        delivered := delivered + added;
        if outcome.Fail? {
          return;
        }
        if queue.pileups != [] {
          break;
        }
      }
      outcome := Pass;
    }

    /**
     * Pileup::Next: fill the queue, then pop its front tuple, or return None
     * when the reader is exhausted and the queue still empty. `delivered` is
     * every tuple the queue received during the call.
     */
    method Next() returns (result: Result<Option<PileupTuple>, Error>, ghost delivered: seq<PileupTuple>)
      requires Valid()
      modifies this`readIndex, this`calls, queue
      ensures Valid() && old(readIndex) <= readIndex
      ensures calls == old(calls) + AddCalls(reader.alignments[old(readIndex)..readIndex])
      ensures var f := FeedSpec(engine, old(calls), old(queue.State()), reader.alignments[old(readIndex)..readIndex]);
        && (result.Failure? <==> f.outcome.Fail?)
        && (result.Failure? ==> result.error == f.outcome.error && queue.State() == f.state)
        && (result == Success(None) <==> f.outcome.Pass? && f.state.pileups == [])
        && (result == Success(None) ==> queue.State() == f.state)
        && (result.Success? && result.value.Some? ==>
              f.state.pileups != [] && result.value.value == f.state.pileups[0] &&
              queue.State() == QueueState(f.state.pileups[1..], f.state.startPosition))
      ensures forall k :: old(readIndex) < k < readIndex ==>
        FeedSpec(engine, old(calls), old(queue.State()), reader.alignments[old(readIndex)..k]).outcome.Pass? &&
        FeedSpec(engine, old(calls), old(queue.State()), reader.alignments[old(readIndex)..k]).state.pileups == []
      ensures old(readIndex) < |reader.alignments| ==> old(readIndex) < readIndex
      ensures old(queue.pileups) != [] && old(readIndex) < |reader.alignments| ==> readIndex == old(readIndex) + 1
      ensures result.Failure? ==> queue.pileups == old(queue.pileups) + delivered
      ensures result == Success(None) ==>
        readIndex == |reader.alignments| && old(queue.pileups) == [] && delivered == [] && queue.pileups == []
      ensures result.Success? && result.value.Some? ==>
        [result.value.value] + queue.pileups == old(queue.pileups) + delivered
      ensures result.Success? && old(queue.pileups) != [] ==> result == Success(Some(old(queue.pileups)[0]))
      ensures result.Success? && readIndex < |reader.alignments| ==> result.value.Some?
      ensures old(readIndex) == |reader.alignments| ==>
        readIndex == old(readIndex) && delivered == [] &&
        result == (if old(queue.pileups) == [] then Success(None) else Success(Some(old(queue.pileups)[0])))
      ensures queue.startPosition == old(queue.startPosition) || queue.startPosition == -1
    {
      var outcome;
      outcome, delivered := Fill();
      if outcome.Fail? {
        return Failure(outcome.error), delivered;
      }
      if queue.pileups == [] {
        return Success(None), delivered;
      }
      var tpl := queue.pileups[0];
      assert old(queue.pileups) != [] ==> tpl == old(queue.pileups)[0] by {
        if old(queue.pileups) != [] {
          assert queue.pileups[0] == (old(queue.pileups) + delivered)[0];
        }
      }
      assert [tpl] + queue.pileups[1..] == queue.pileups;
      queue.pileups := queue.pileups[1..];
      result := Success(Some(tpl));
    }
  }

  /**
   * A successful Jump followed by Next yields a tuple whose (1-based)
   * position is at least the requested one, or nothing once the reader is
   * exhausted.
   */
  method JumpThenNext(p: Pileup, refName: string, position: int) returns (result: Result<Option<PileupTuple>, Error>)
    requires p.Valid()
    modifies p`readIndex, p`calls, p.queue
    ensures ReferenceId(p.reader.references, refName) < 0 ==> result == Failure(InvalidRefName(refName))
    ensures result.Success? && result.value.Some? ==> result.value.value.position >= position
    ensures result == Success(None) ==> p.readIndex == |p.reader.alignments|
  {
    var outcome;
    ghost var delivered, dropped;
    outcome, delivered, dropped := p.Jump(refName, position);
    if outcome.Fail? {
      return Failure(outcome.error);
    }
    ghost var delivered2;
    result, delivered2 := p.Next();
  }
}
