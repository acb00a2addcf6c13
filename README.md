# pybam pileup core in Dafny

This project models the pileup core of pybam (`src/pybam.cpp`). pybam is a Boost.Python extension that walks an indexed BAM file position by position. For every reference position it returns a tuple of per-base statistics:

- a 5×6 table with one row per base A, C, G, T plus a total row, and columns count, summed base quality, summed mapping quality and "distance + strand";
- the index of the major base and of the minor base;
- the number of ambiguous (`N`) observations;
- the 1-based position.

The model has three layers, each in the source's own form.

- `PileupStats` (`stats.dfy`) covers `CreatePileupTuple`.
  - The specification functions `KindOf`, `Cell`, `AmbiguousCount`, `FirstError`, `FirstScanMajor`, `SecondScanMajor` and `Stats` say what the tuple is.
  - The method `CreatePileupTuple` computes it as the source does, with a local `array2<int>` and the source's first three loops (the entropy loop is left out). It is proved to return exactly `Stats`.
  - Lemmas state the table's invariants, the error cases and several concrete positions.
- `PileupQueues` (`queue.dfy`) covers the class `PileupQueue`, the visitor that the windowing engine calls.
  - It holds a FIFO of tuples and the one-shot watermark `startPosition`.
  - `VisitSpec` and `DeliverSpec` describe one visit and a batch of visits as values.
  - Lemmas describe how the watermark filters a batch.
- `PileupCursor` (`cursor.dfy`) covers the class `Pileup`, with `Open`, `Jump` and `Next`.
  - The BAM reader is a `BamFile` value: reference names, alignments in file order, and the read index `BamReader::Jump` seeks to. It is paired with a read index.
  - The windowing engine is an oracle that maps the history of calls made to it, plus one more `AddAlignment` or `Flush` call, to the finalized positions that call emits. Each emitted position is passed to `Visit` in order.
  - `FeedSpec` is the reference for feeding alignments: for each alignment in turn, the queue state is transformed by `DeliverSpec` of what the engine emits for it, and the first exception stops the run. `Jump` and `Next` are stated against it; `Open` is stated against `DeliverSpec` of the flush.

Behaviours of the code that the model keeps literally:

- **Minor/major selection.** The second scan (`src/pybam.cpp:94-100`) compares each count against the *minor* base's count but assigns the *major* index. The minor index returned is therefore always the base after the first-scan major, cyclically. The major index returned is the highest base whose count exceeds the minor base's count, or the first-scan major when no count does. With counts (A,C,G,T) = (5,0,3,0) the source returns major = G (2) and minor = C (1) (`MajorNotMaximum`). The model keeps this behaviour; it does not correct it.
- **Open and the watermark.** `Pileup::Open` (`src/pybam.cpp:180-181`) flushes the engine and clears the queue but does not reset `StartPosition`. A watermark armed by an earlier `Jump` that was never crossed stays armed. The model follows the code: `Open` does not disarm a pending watermark.
- **Jump compares mixed units, harmlessly.** `Jump` arms the watermark at the 0-based target on an empty queue (`src/pybam.cpp:203-207`), and `Visit` compares 0-based positions against it (`src/pybam.cpp:139`). So the first tuple the queue keeps, and hence its front for the rest of the run, has a 1-based position of at least `position` (`FeedKeepsFront`). The pruning loop and the stop check (`src/pybam.cpp:219-227`) compare that 1-based position with the 0-based target. The comparison is off by one, but it can never pop anything: every front is already past the target (`NothingDropped`). `Jump` therefore pops nothing, and after it the front, if any, is at a position of at least `position`. `Jump` and `JumpThenNext` state this.
- **Quality values.** Base qualities are added as the raw byte read as a signed C `char`. No Phred offset is subtracted.
- **Out-of-range offsets.** `QueryBases.at` and `Qualities.at` raise `std::out_of_range` when the offset is past the end. This is the `OutOfRange` error path. An unrecognised base raises `UnrecognizedBase`. In both cases no tuple is built and the exception propagates out of `Visit`, out of the engine's batch, and out of `Next`/`Jump`.

## Model

| member | source | states |
|---|---|---|
| PileupStats.KindOf | src/pybam.cpp:38-59 | an observation classified as a called base has a base index below 4, and its offset lies inside both its bases and its qualities |
| PileupStats.FirstScanMajorIsFirstMaximum | src/pybam.cpp:82-90 | the first scan's result holds the largest count, and every lower index holds a strictly smaller count, so it is the lowest index of the maximum |
| PileupStats.SecondScanMajorSelection | src/pybam.cpp:92-100 | if some count exceeds the minor base's count, the result exceeds it and no higher index does; otherwise the result is the first-scan major |
| PileupStats.Accumulate | src/pybam.cpp:61-79 | one called base adds 1, its quality, the mapping quality and distance+direction to the four used columns of its own row and of the total row; no other cell changes |
| PileupStats.FoldObservations | src/pybam.cpp:30-80 | the observation loop stops with exactly the first malformed observation's error; otherwise every array cell equals `Cell` and the ambiguous counter equals `AmbiguousCount` |
| PileupStats.SelectBases | src/pybam.cpp:82-100 | the two scans over the array's count column return the minor index `(m+1)%4` and the second-scan major, where m is the first-scan major |
| PileupStats.CreatePileupTuple | src/pybam.cpp:28-129 | the tuple built in the array is exactly `Stats` of the position: reference id, position + 1, table, major, minor, ambiguous count and depth; or the error of the first malformed observation |
| PileupStats.FirstErrorIsFirstMalformed | src/pybam.cpp:43-59 | when observation i is the first malformed one, the raised error is the error of observation i |
| PileupStats.NoMalformedNoError | src/pybam.cpp:33-80 | with no malformed observation, the loop raises nothing |
| PileupStats.ErrorIffMalformed | src/pybam.cpp:43-59 | no tuple is produced if and only if some observation is malformed (offset out of range, or a base other than A/C/G/T/N in either case) |
| PileupStats.ObservationBucketing | src/pybam.cpp:38-79 | one more observation: a deletion or N changes no cell and an N adds one to the ambiguous count; a called base changes exactly its own row and the total row, by its column values |
| PileupStats.CalledColumnValues | src/pybam.cpp:61-79 | a called base contributes 1 to count, its signed quality, its mapping quality, and `length - offset` (reverse strand) or `offset` (forward) to the signal column; 0 to the last two columns |
| PileupStats.TotalIsSum | src/pybam.cpp:61-79 | every column of the total row is the sum of that column over the four base rows |
| PileupStats.UnusedColumnsZero | src/pybam.cpp:117-122 | the last two columns of every row stay zero |
| PileupStats.CountIsTally | src/pybam.cpp:61-63 | each base's count is the number of observations called as that base |
| PileupStats.AmbiguousIsTally | src/pybam.cpp:45-49 | the ambiguous count is the number of N (or n) observations |
| PileupStats.DepthPartition | src/pybam.cpp:33-80 | without an error, every observation is a deletion, an N or one of A/C/G/T: the six tallies sum to the depth |
| PileupStats.TupleInvariants | src/pybam.cpp:28-129 | every returned tuple has the input's reference id, position + 1, a 5×6 table whose total row is the sum of the base rows and whose last two columns are zero, base counts and ambiguous count equal to the tallies, and depth = deletions + ambiguous + total count |
| PileupStats.MajorMinorSelection | src/pybam.cpp:82-100 | the minor is the base after the first-scan major and never equals it; the major differs from the minor and is the first-scan major or a base whose count exceeds the minor's |
| PileupStats.MajorNotMaximum | src/pybam.cpp:94-100 | with counts (5,0,3,0) the first scan picks A, the minor is C and the returned major is G, which is not the base with the largest count |
| PileupStats.ThreeReadPosition | src/pybam.cpp:28-129 | a position with a forward A, a reverse A and a forward T yields the exact table (signal 0 + 1 for A, 5 for T), position 100 for 0-based 99, no ambiguous bases, depth 3, minor C, and major T although A has the largest count |
| PileupStats.AmbiguousOnlyPosition | src/pybam.cpp:45-49 | a position whose only observation is a lower-case `n` yields an empty table, ambiguous count 1, major A and minor C |
| PileupStats.MalformedPosition | src/pybam.cpp:51-58 | a deletion followed by an `X` raises `UnrecognizedBase('X')`, whatever follows |
| PileupQueues.BelowWatermarkDiscarded | src/pybam.cpp:138-142 | a position below the watermark leaves queue and watermark unchanged and raises nothing, even if its observations are malformed |
| PileupQueues.AcceptedDisarms | src/pybam.cpp:144-147 | a well-formed position at or above the watermark is appended at the back and the watermark becomes -1 |
| PileupQueues.DeliverAppends | src/pybam.cpp:136-148 | a batch of visits only appends to the queue, and leaves the watermark as it was or disarmed |
| PileupQueues.DeliverAccepting | src/pybam.cpp:136-148 | a well-formed batch whose first position passes the watermark is appended whole, in order, and disarms the watermark |
| PileupQueues.DeliverDisarmed | src/pybam.cpp:146-147 | with the watermark disarmed, every well-formed batch of non-negative positions is appended whole, in order |
| PileupQueues.DeliverFromWatermark | src/pybam.cpp:136-148 | over a batch, the positions before the first one at or above the watermark are dropped, even if malformed; that one and every later one is appended in order; the watermark is disarmed exactly when something was kept |
| PileupQueues.DeliverFrame | src/pybam.cpp:136-148 | a batch only appends behind what the queue already holds: delivered to a queue holding p, it yields p followed by exactly the tuples, watermark and outcome it yields on an empty queue with the same watermark |
| PileupQueues.DeliverKeepsFront | src/pybam.cpp:136-148 | once a watermark `w` armed on an empty queue has been honoured (queue empty and still armed at `w`, or front at a 1-based position of at least `w + 1`), every batch keeps it so: new tuples only go behind the front |
| PileupQueues.PileupQueue.constructor | src/pybam.cpp:134 | a new queue is empty with the watermark disarmed (-1) |
| PileupQueues.PileupQueue.Visit | src/pybam.cpp:136-148 | below the watermark nothing changes; otherwise either the tuple's error is raised with nothing changed, or the tuple is pushed and the watermark disarmed; the new state and outcome equal `VisitSpec` |
| PileupQueues.PileupQueue.Clear | src/pybam.cpp:150-154 | the queue becomes empty and the watermark is left as it was |
| PileupQueues.PileupQueue.Deliver | src/pybam.cpp:136-148 | calling Visit on each position of a batch in order, stopping at the first exception, yields exactly `DeliverSpec` |
| PileupCursor.ReferenceId | src/pybam.cpp:195-200 | the id is -1 exactly when the name is not a reference; otherwise it is the index of the first reference with that name |
| PileupCursor.Pileup.constructor | src/pybam.cpp:163-166 | a new cursor has no file, an empty queue, a disarmed watermark and no engine history |
| PileupCursor.Pileup.RunEngine | src/pybam.cpp:180 | one engine call is appended to the history, and the queue is transformed by visiting what the engine emits for it (`DeliverSpec`) |
| PileupCursor.Pileup.Feed | src/pybam.cpp:210-212 | the next alignment is read (index + 1) and added to the engine, and the queue is transformed by `DeliverSpec` of what the engine emits |
| PileupCursor.Pileup.Open | src/pybam.cpp:180-187 | the file is installed and read from its start; the outcome and the watermark are those of delivering the engine's Flush output to the old queue (`DeliverSpec`), so the watermark is not reset, and it is unchanged when the flush emits nothing; if the flush raises, the queue is left exactly as that delivery leaves it; otherwise the queue is emptied and the reference names published |
| PileupCursor.FeedKeepsFront | src/pybam.cpp:207-212 | feeding any alignments to any engine from a state that honours the watermark `w` leaves a state that honours it, so the front of a run begun with the watermark armed at `w` on an empty queue is at a 1-based position of at least `w + 1` |
| PileupCursor.NothingDropped | src/pybam.cpp:219-223 | a queue that honours the watermark at the target has no nonempty prefix of same-reference tuples before the target, so the pruning loop pops nothing |
| PileupCursor.PrefixesBelow | src/pybam.cpp:210-229 | `PrefixesBelowTarget` of `als[lo..hi]` read prefix by prefix: each nonempty prefix's feeding run raised nothing and left only same-reference tuples before the target |
| PileupCursor.Pileup.FeedNext | src/pybam.cpp:210-212 | one more alignment read and added to the engine extends the feeding run by one step: the queue, with the tuples already taken from its front put back, and the outcome are `FeedSpec` of the alignments read so far |
| PileupCursor.Pileup.DropBefore | src/pybam.cpp:219-223 | the popped tuples are a prefix of the queue, all on the target reference before the target; afterwards the front, if any, is on another reference or at or past the target |
| PileupCursor.Pileup.AdvanceStep | src/pybam.cpp:210-229 | one round of Jump's loop: the feeding run grows by one alignment (`FeedSpec`); if it passes and the queue is still empty, the new prefix also stayed below the target; on success the popped tuples are same-reference tuples before the target and the front, when the loop stops, has reached the target; on an exception the tuples dropped are exactly the queue of the run before this alignment |
| PileupCursor.Pileup.Advance | src/pybam.cpp:210-230 | the outcome, every tuple received and the watermark are `FeedSpec` of the engine over exactly the alignments read; every shorter run raised nothing and received only same-reference tuples before the target; on an exception at least one alignment was read and the tuples dropped are exactly those of the run one alignment shorter; on success the reader is exhausted or the front of the queue has reached the target; everything received is the dropped prefix followed by the queue |
| PileupCursor.Pileup.Jump | src/pybam.cpp:190-231 | an unknown reference raises `InvalidRefName` and changes nothing; otherwise the engine is flushed into the queue, and if the flush raises, the queue is as that delivery leaves it and the reader does not move; else the queue is cleared, the reader moved to the indexed start and the watermark armed at `position - 1`; the outcome and the whole queue state are `FeedSpec` of the engine, after the flush, over exactly the alignments read from the indexed start, nothing is dropped, and the front, if any, is at a position of at least `position`; every shorter run raised nothing and received only tuples before the target; on success the front is on another reference or at least `position - 1`, or the reader is exhausted |
| PileupCursor.Pileup.Seek | src/pybam.cpp:203-230 | after a passed flush: the queue is cleared, the reader moved to the indexed start and the watermark armed at the target; the outcome and the whole queue state are `FeedSpec` of the engine over exactly the alignments read, nothing is dropped, and the front, if any, is at a 1-based position past the 0-based target; every shorter run stayed below the target; on success the reader is exhausted or the front has reached the target |
| PileupCursor.Pileup.Fill | src/pybam.cpp:236-244 | the queue and the outcome are `FeedSpec` of the engine over exactly the alignments read, and every shorter run raised nothing and left the queue empty; at least one alignment is fed when one is left, and exactly one when the queue was non-empty; on success, unread alignments remain only if the queue is non-empty |
| PileupCursor.Pileup.Next | src/pybam.cpp:233-256 | with `f` the `FeedSpec` of the engine over the alignments read: Next raises exactly when `f` raises, with its error and state; returns None exactly when `f` left the queue empty; otherwise returns the front of `f`'s queue and leaves its tail; every shorter run raised nothing and left the queue empty; a non-empty queue makes it read exactly one alignment and return the old front |
| PileupCursor.JumpThenNext | src/pybam.cpp:190-256 | an unknown reference raises `InvalidRefName`; after a successful Jump, Next returns a tuple at a position of at least `position`, or None only with the reader exhausted |

## Left out

- Entropy (`src/pybam.cpp:102-112`) is floating point (`log`, division by the depth) and is not modelled. The tuple carries the depth it is computed from instead.
- The two literal `0` slots of the Python tuple are not modelled.
- The remaining tuple fields are a datatype value, not a Python object.
- Boost.Python bindings, the `python::list` of reference names and the `None` object are modelled as Dafny sequences and `Option`.
- File and index opening (`src/pybam.cpp:170-178`) are I/O. `Open` models the state after both succeeded, given the opened file as a value.
- The bamtools reader and windowing engine are not part of this model. The reader is a sequence of alignments plus an index oracle. The engine is an oracle function of its call history. Any ordering the real engine guarantees, such as non-decreasing positions, is not assumed.
- The engine's internal state after a visitor exception is not modelled beyond recording the call in its history.
- Counts and sums are unbounded integers. The source's `int` columns overflow once a column's sum passes 2^31 - 1. For the signal column, which adds up to one read length per observation, that takes about 2^31 / read length observations. For the mapping-quality column, at most 255 per observation, it takes about 8.4 million.
- Bases and qualities are modelled as bytes, `toupper` as the ASCII "C"-locale mapping, and `char` as signed.
- PileupCursor.Pileup.Jump: the source keeps no record of the tuples the queue receives and pops. The model's `delivered` and `dropped` (also on `Advance`, `Fill` and `Next`) are ghost outputs with no runtime counterpart.
