/**
 * The statistics tuple of one pileup position (CreatePileupTuple): a 5x6
 * table of per-base sums, an ambiguous-base count, major and minor base
 * indices and the 1-based position.
 *
 * The specification functions (KindOf, Cell, AmbiguousCount, FirstError,
 * FirstScanMajor, SecondScanMajor, Stats) say what the tuple is; the method
 * CreatePileupTuple computes it the way the source does, with a local 5x6
 * array and three loops, and is proved to return Stats.
 */
module PileupStats {
  import opened Wrappers
  import opened PileupTypes

  // Table layout: rows 0..3 are A, C, G, T; row 4 is the total.
  const TOTAL := 4
  const ROWS := 5
  const COLS := 6
  // Columns.
  const COUNT := 0
  const QUALITY := 1
  const MAP_QUALITY := 2
  const SIGNAL := 3

  // ASCII codes of the bases.
  const CHAR_A: byte := 65
  const CHAR_C: byte := 67
  const CHAR_G: byte := 71
  const CHAR_T: byte := 84
  const CHAR_N: byte := 78

  /** C's toupper in the "C" locale. */
  function ToUpper(b: byte): byte {
    if 97 <= b <= 122 then b - 32 else b
  }

  /** The value of a byte read as a (signed) C++ char, as it is added to an int. */
  function SignedChar(b: byte): int {
    if b < 128 then b as int else b as int - 256
  }

  /** The row of an upper-case base, if it is one of A, C, G, T. */
  function BaseIndex(base: byte): Option<nat> {
    if base == CHAR_A then Some(0)
    else if base == CHAR_C then Some(1)
    else if base == CHAR_G then Some(2)
    else if base == CHAR_T then Some(3)
    else None
  }

  /** How one observation is bucketed. */
  datatype Kind = Deleted | Ambiguous | Called(baseIdx: nat) | Malformed(error: Error)

  function KindOf(pa: PileupAlignment): (k: Kind)
    ensures k.Called? ==>
      k.baseIdx < 4 &&
      0 <= pa.positionInAlignment < |pa.alignment.queryBases| &&
      pa.positionInAlignment < |pa.alignment.qualities|
  {
    var al := pa.alignment;
    var pos := pa.positionInAlignment;
    if pa.isCurrentDeletion then Deleted
    else if !(0 <= pos < |al.queryBases|) then Malformed(OutOfRange)
    else
      var base := ToUpper(al.queryBases[pos]);
      if base == CHAR_N then Ambiguous
      else match BaseIndex(base)
        case None => Malformed(UnrecognizedBase(base))
        case Some(idx) => if pos < |al.qualities| then Called(idx) else Malformed(OutOfRange)
  }

  /** Distance of the base from the 5' end of the read. */
  function Distance(pa: PileupAlignment): int {
    if pa.alignment.isReverseStrand
    then pa.alignment.length - pa.positionInAlignment - 1
    else pa.positionInAlignment
  }

  /** The strand indicator added to the same column as the distance. */
  function Direction(pa: PileupAlignment): int {
    if pa.alignment.isReverseStrand then 1 else 0
  }

  /** What a called observation adds to column `col` of its rows. */
  function ColumnValue(pa: PileupAlignment, col: int): int
    requires KindOf(pa).Called?
  {
    ColumnAdd(col, SignedChar(pa.alignment.qualities[pa.positionInAlignment]),
      pa.alignment.mapQuality, Distance(pa) + Direction(pa))
  }

  /** What one observation adds to cell (row, col). */
  function Contribution(pa: PileupAlignment, row: int, col: int): int {
    match KindOf(pa)
    case Called(idx) => if row == idx || row == TOTAL then ColumnValue(pa, col) else 0
    case _ => 0
  }

  /** Cell (row, col) of the table after folding over `obs`. */
  function Cell(obs: seq<PileupAlignment>, row: int, col: int): int {
    if |obs| == 0 then 0
    else Cell(obs[..|obs| - 1], row, col) + Contribution(obs[|obs| - 1], row, col)
  }

  function AmbiguousCount(obs: seq<PileupAlignment>): nat {
    if |obs| == 0 then 0
    else AmbiguousCount(obs[..|obs| - 1]) + (if KindOf(obs[|obs| - 1]).Ambiguous? then 1 else 0)
  }

  /** Number of observations bucketed as `k`; a reference count for the lemmas. */
  function Tally(obs: seq<PileupAlignment>, k: Kind): nat {
    if |obs| == 0 then 0
    else (if KindOf(obs[0]) == k then 1 else 0) + Tally(obs[1..], k)
  }

  /** The error of the first malformed observation, if any: the exception the loop raises. */
  function FirstError(obs: seq<PileupAlignment>): Option<Error> {
    if |obs| == 0 then None
    else match KindOf(obs[0])
      case Malformed(e) => Some(e)
      case _ => FirstError(obs[1..])
  }

  /** The 5x6 table of a position: cell (row, col) is Cell(obs, row, col). */
  function Table(obs: seq<PileupAlignment>): seq<seq<int>> {
    seq(ROWS, row => seq(COLS, col => Cell(obs, row, col)))
  }

  /** The count column of the four base rows. */
  function Counts(obs: seq<PileupAlignment>): (c: seq<int>)
    ensures |c| == 4
  {
    [Cell(obs, 0, COUNT), Cell(obs, 1, COUNT), Cell(obs, 2, COUNT), Cell(obs, 3, COUNT)]
  }

  function Max(a: int, b: int): int {
    if a < b then b else a
  }

  /** The major base after the first scan: the lowest index holding the largest count. */
  function FirstScanMajor(counts: seq<int>): (m: nat)
    requires |counts| == 4
    ensures m < 4
  {
    var top := Max(Max(counts[0], counts[1]), Max(counts[2], counts[3]));
    if counts[0] == top then 0
    else if counts[1] == top then 1
    else if counts[2] == top then 2
    else 3
  }

  /** The first scan's result holds the largest count, and every lower index a strictly smaller one. */
  lemma FirstScanMajorIsFirstMaximum(counts: seq<int>)
    requires |counts| == 4
    ensures var m := FirstScanMajor(counts);
      && (forall b :: 0 <= b < 4 ==> counts[b] <= counts[m])
      && (forall b :: 0 <= b < m ==> counts[b] < counts[m])
  {
  }

  /** The minor base the source returns: the base after the first-scan major, cyclically. */
  function MinorOf(firstMajor: nat): nat {
    (firstMajor + 1) % 4
  }

  /**
   * The major base the source returns. The second scan compares against the
   * count of the minor base but assigns the major index, so the result is the
   * highest index whose count exceeds the minor base's count, or the
   * first-scan major when there is none.
   */
  function SecondScanMajor(counts: seq<int>, firstMajor: nat): (m: nat)
    requires |counts| == 4 && firstMajor < 4
    ensures m < 4
  {
    var floor := counts[MinorOf(firstMajor)];
    if counts[3] > floor then 3
    else if counts[2] > floor then 2
    else if counts[1] > floor then 1
    else if counts[0] > floor then 0
    else firstMajor
  }

  /**
   * If some count exceeds the minor base's, the second scan returns a base
   * whose count exceeds it and no higher base's count does; otherwise it
   * returns the first-scan major.
   */
  lemma SecondScanMajorSelection(counts: seq<int>, firstMajor: nat)
    requires |counts| == 4 && firstMajor < 4
    ensures var m, floor := SecondScanMajor(counts, firstMajor), counts[MinorOf(firstMajor)];
      && ((exists b :: 0 <= b < 4 && counts[b] > floor) ==>
            counts[m] > floor && forall b :: m < b < 4 ==> counts[b] <= floor)
      && ((forall b :: 0 <= b < 4 ==> counts[b] <= floor) ==> m == firstMajor)
  {
  }

  /** The tuple CreatePileupTuple returns for a position, or the error it raises. */
  function Stats(p: PileupPosition): Result<PileupTuple, Error> {
    var obs := p.pileupAlignments;
    match FirstError(obs)
    case Some(e) => Failure(e)
    case None =>
      var counts := Counts(obs);
      var firstMajor := FirstScanMajor(counts);
      Success(PileupTuple(
        p.refId, p.position + 1, Table(obs),
        SecondScanMajor(counts, firstMajor), MinorOf(firstMajor),
        AmbiguousCount(obs), |obs|))
  }

  // ---------------------------------------------------------------------------
  // The computation as the source performs it.

  /** Adds one called base to its row and to the total row, column by column as the source does. */
  method Accumulate(ntData: array2<int>, baseIdx: int, quality: int, mapQuality: int, distance: int, direction: int)
    requires ntData.Length0 == ROWS && ntData.Length1 == COLS && 0 <= baseIdx < 4
    modifies ntData
    ensures forall row, col :: 0 <= row < ROWS && 0 <= col < COLS ==>
      ntData[row, col] == old(ntData[row, col]) +
        (if row == baseIdx || row == TOTAL then ColumnAdd(col, quality, mapQuality, distance + direction) else 0)
  {
    // The base row and the total row get the same amounts; the strand indicator goes into the distance column.
    ntData[baseIdx, COUNT] := ntData[baseIdx, COUNT] + 1;
    ntData[TOTAL, COUNT] := ntData[TOTAL, COUNT] + 1;
    ntData[baseIdx, QUALITY] := ntData[baseIdx, QUALITY] + quality;
    ntData[TOTAL, QUALITY] := ntData[TOTAL, QUALITY] + quality;
    ntData[baseIdx, MAP_QUALITY] := ntData[baseIdx, MAP_QUALITY] + mapQuality;
    ntData[TOTAL, MAP_QUALITY] := ntData[TOTAL, MAP_QUALITY] + mapQuality;
    ntData[baseIdx, SIGNAL] := ntData[baseIdx, SIGNAL] + distance;
    ntData[TOTAL, SIGNAL] := ntData[TOTAL, SIGNAL] + distance;
    ntData[baseIdx, SIGNAL] := ntData[baseIdx, SIGNAL] + direction;
    ntData[TOTAL, SIGNAL] := ntData[TOTAL, SIGNAL] + direction;
  }

  /** The amount added to column `col` of a row, given the per-column values of one base. */
  function ColumnAdd(col: int, quality: int, mapQuality: int, signal: int): int {
    if col == COUNT then 1
    else if col == QUALITY then quality
    else if col == MAP_QUALITY then mapQuality
    else if col == SIGNAL then signal
    else 0
  }

  /** The count column of the four base rows of a table held in an array. */
  function ArrayCounts(ntData: array2<int>): (c: seq<int>)
    requires ntData.Length0 == ROWS && ntData.Length1 == COLS
    reads ntData
    ensures |c| == 4
  {
    [ntData[0, COUNT], ntData[1, COUNT], ntData[2, COUNT], ntData[3, COUNT]]
  }

  /**
   * The loop over the observations: fills a zeroed table and counts the
   * ambiguous bases, or stops at the first malformed observation.
   */
  method FoldObservations(obs: seq<PileupAlignment>, ntData: array2<int>) returns (ambiguous: nat, err: Option<Error>)
    requires ntData.Length0 == ROWS && ntData.Length1 == COLS
    requires forall row, col :: 0 <= row < ROWS && 0 <= col < COLS ==> ntData[row, col] == 0
    modifies ntData
    ensures err == FirstError(obs)
    ensures err.None? ==> ambiguous == AmbiguousCount(obs)
    ensures err.None? ==> forall row, col :: 0 <= row < ROWS && 0 <= col < COLS ==>
      ntData[row, col] == Cell(obs, row, col)
  {
    ambiguous := 0;
    for i := 0 to |obs|
      invariant forall j :: 0 <= j < i ==> !KindOf(obs[j]).Malformed?
      invariant ambiguous == AmbiguousCount(obs[..i])
      invariant forall row, col :: 0 <= row < ROWS && 0 <= col < COLS ==>
        ntData[row, col] == Cell(obs[..i], row, col)
    {
      var pa := obs[i];
      var ba := pa.alignment;
      var pos := pa.positionInAlignment;
      assert obs[..i + 1][..i] == obs[..i];
      if pa.isCurrentDeletion {
        continue;
      }
      if !(0 <= pos < |ba.queryBases|) {
        FirstErrorIsFirstMalformed(obs, i);
        return ambiguous, Some(OutOfRange);
      }
      var base := ToUpper(ba.queryBases[pos]);
      if base == CHAR_N {
        ambiguous := ambiguous + 1;
        continue;
      }
      var baseIdx;
      if base == CHAR_A {
        baseIdx := 0;
      } else if base == CHAR_C {
        baseIdx := 1;
      } else if base == CHAR_G {
        baseIdx := 2;
      } else if base == CHAR_T {
        baseIdx := 3;
      } else {
        FirstErrorIsFirstMalformed(obs, i);
        return ambiguous, Some(UnrecognizedBase(base));
      }
      // Qualities.at raises before the quality is added; the table is discarded then.
      if !(pos < |ba.qualities|) {
        FirstErrorIsFirstMalformed(obs, i);
        return ambiguous, Some(OutOfRange);
      }
      var quality := SignedChar(ba.qualities[pos]);
      var distance := if ba.isReverseStrand then ba.length - pos - 1 else pos;
      var direction := if ba.isReverseStrand then 1 else 0;

      Accumulate(ntData, baseIdx, quality, ba.mapQuality, distance, direction);
      assert forall row, col :: 0 <= row < ROWS && 0 <= col < COLS ==>
        Contribution(pa, row, col) == if row == baseIdx || row == TOTAL then ColumnValue(pa, col) else 0;
    }
    assert obs[..|obs|] == obs;
    NoMalformedNoError(obs);
    err := None;
  }

  /** The two scans over the count column that pick the major and minor base indices. */
  method SelectBases(ntData: array2<int>) returns (majorBaseIdx: int, minorBaseIdx: int)
    requires ntData.Length0 == ROWS && ntData.Length1 == COLS
    ensures minorBaseIdx == MinorOf(FirstScanMajor(ArrayCounts(ntData)))
    ensures majorBaseIdx == SecondScanMajor(ArrayCounts(ntData), FirstScanMajor(ArrayCounts(ntData)))
  {
    ghost var counts := ArrayCounts(ntData);

    // First scan: the lowest index holding the largest count.
    majorBaseIdx := 0;
    for baseIdx := 0 to 4
      invariant 0 <= majorBaseIdx < 4
      invariant majorBaseIdx == 0 || majorBaseIdx < baseIdx
      invariant forall b :: 0 <= b < baseIdx ==> counts[b] <= counts[majorBaseIdx]
      invariant forall b :: 0 <= b < majorBaseIdx ==> counts[b] < counts[majorBaseIdx]
    {
      if ntData[baseIdx, COUNT] > ntData[majorBaseIdx, COUNT] {
        majorBaseIdx := baseIdx;
      }
    }
    FirstScanMajorIsFirstMaximum(counts);
    assert majorBaseIdx == FirstScanMajor(counts);

    // Second scan: each count is compared with the minor base's, and the index is written to the major one.
    minorBaseIdx := (majorBaseIdx + 1) % 4;
    ghost var firstMajor := majorBaseIdx;
    ghost var floor := counts[minorBaseIdx];
    for baseIdx := 0 to 4
      invariant 0 <= majorBaseIdx < 4
      invariant (forall b :: 0 <= b < baseIdx ==> counts[b] <= floor) ==> majorBaseIdx == firstMajor
      invariant (exists b :: 0 <= b < baseIdx && counts[b] > floor) ==>
        majorBaseIdx < baseIdx && counts[majorBaseIdx] > floor &&
        forall b :: majorBaseIdx < b < baseIdx ==> counts[b] <= floor
    {
      if ntData[baseIdx, COUNT] > ntData[minorBaseIdx, COUNT] && baseIdx != majorBaseIdx {
        majorBaseIdx := baseIdx;
      }
    }
  }

  method CreatePileupTuple(pileupData: PileupPosition) returns (r: Result<PileupTuple, Error>)
    ensures r == Stats(pileupData)
  {
    var obs := pileupData.pileupAlignments;
    var ntData := new int[ROWS, COLS]((_, _) => 0);
    var ambiguous, err := FoldObservations(obs, ntData);
    if err.Some? {
      return Failure(err.value);
    }
    assert ArrayCounts(ntData) == Counts(obs);
    var majorBaseIdx, minorBaseIdx := SelectBases(ntData);

    // The tuple carries the 1-based position; the reader's positions are 0-based.
    var position := pileupData.position + 1;

    var table := seq(ROWS, row requires 0 <= row < ROWS reads ntData =>
      seq(COLS, col requires 0 <= col < COLS reads ntData => ntData[row, col]));
    forall row | 0 <= row < ROWS
      ensures table[row] == Table(obs)[row]
    {
      assert forall col :: 0 <= col < COLS ==> table[row][col] == Table(obs)[row][col];
    }
    assert table == Table(obs);
    r := Success(PileupTuple(pileupData.refId, position, table, majorBaseIdx, minorBaseIdx, ambiguous, |obs|));
  }

  // ---------------------------------------------------------------------------
  // The malformed-base error path.

  /** The error raised is that of the first malformed observation. */
  lemma {:induction false} FirstErrorIsFirstMalformed(obs: seq<PileupAlignment>, i: nat)
    requires i < |obs| && KindOf(obs[i]).Malformed?
    requires forall j :: 0 <= j < i ==> !KindOf(obs[j]).Malformed?
    ensures FirstError(obs) == Some(KindOf(obs[i]).error)
  {
    if i > 0 {
      assert !KindOf(obs[0]).Malformed?;
      FirstErrorIsFirstMalformed(obs[1..], i - 1);
    }
  }

  lemma {:induction false} NoMalformedNoError(obs: seq<PileupAlignment>)
    requires forall j :: 0 <= j < |obs| ==> !KindOf(obs[j]).Malformed?
    ensures FirstError(obs) == None
  {
    if |obs| > 0 {
      NoMalformedNoError(obs[1..]);
    }
  }

  /** The index of the first malformed observation among the first `k`, or -1 when there is none. */
  function FirstMalformedBefore(obs: seq<PileupAlignment>, k: nat): (f: int)
    requires k <= |obs|
    ensures f < 0 ==> forall i :: 0 <= i < k ==> !KindOf(obs[i]).Malformed?
    ensures f >= 0 ==> f < k && KindOf(obs[f]).Malformed? && forall i :: 0 <= i < f ==> !KindOf(obs[i]).Malformed?
  {
    if k == 0 then -1
    else
      var f := FirstMalformedBefore(obs, k - 1);
      if f >= 0 then f else if KindOf(obs[k - 1]).Malformed? then k - 1 else -1
  }

  /** No tuple is produced exactly when some observation is malformed. */
  lemma ErrorIffMalformed(p: PileupPosition)
    ensures Stats(p).Failure? <==>
      exists j :: 0 <= j < |p.pileupAlignments| && KindOf(p.pileupAlignments[j]).Malformed?
  {
    var obs := p.pileupAlignments;
    var f := FirstMalformedBefore(obs, |obs|);
    if f >= 0 {
      FirstErrorIsFirstMalformed(obs, f);
    } else {
      NoMalformedNoError(obs);
    }
  }

  // ---------------------------------------------------------------------------
  // Properties of the table.

  /**
   * One more observation: a deletion changes nothing, an N only increments the
   * ambiguous count, and an A, C, G or T adds to its own row and to the total
   * row and to no other row.
   */
  lemma ObservationBucketing(obs: seq<PileupAlignment>, pa: PileupAlignment, row: int, col: int)
    ensures AmbiguousCount(obs + [pa]) == AmbiguousCount(obs) + (if KindOf(pa).Ambiguous? then 1 else 0)
    ensures !KindOf(pa).Called? ==> Cell(obs + [pa], row, col) == Cell(obs, row, col)
    ensures KindOf(pa).Called? && row != KindOf(pa).baseIdx && row != TOTAL ==>
      Cell(obs + [pa], row, col) == Cell(obs, row, col)
    ensures KindOf(pa).Called? && (row == KindOf(pa).baseIdx || row == TOTAL) ==>
      Cell(obs + [pa], row, col) == Cell(obs, row, col) + ColumnValue(pa, col)
  {
    assert (obs + [pa])[..|obs|] == obs;
  }

  /** What a called base adds to each column; the signal column folds distance and strand together. */
  lemma CalledColumnValues(pa: PileupAlignment)
    requires KindOf(pa).Called?
    ensures ColumnValue(pa, COUNT) == 1
    ensures ColumnValue(pa, QUALITY) == SignedChar(pa.alignment.qualities[pa.positionInAlignment])
    ensures ColumnValue(pa, MAP_QUALITY) == pa.alignment.mapQuality
    ensures ColumnValue(pa, SIGNAL) ==
      if pa.alignment.isReverseStrand then pa.alignment.length - pa.positionInAlignment
      else pa.positionInAlignment
    ensures ColumnValue(pa, 4) == 0 && ColumnValue(pa, 5) == 0
  {
  }

  /** The total row is the sum of the four base rows, column by column. */
  lemma {:induction false} TotalIsSum(obs: seq<PileupAlignment>, col: int)
    ensures Cell(obs, TOTAL, col) ==
      Cell(obs, 0, col) + Cell(obs, 1, col) + Cell(obs, 2, col) + Cell(obs, 3, col)
  {
    if |obs| > 0 {
      TotalIsSum(obs[..|obs| - 1], col);
    }
  }

  /** The last two columns of every row stay zero. */
  lemma {:induction false} UnusedColumnsZero(obs: seq<PileupAlignment>, row: int, col: int)
    requires col == 4 || col == 5
    ensures Cell(obs, row, col) == 0
  {
    if |obs| > 0 {
      UnusedColumnsZero(obs[..|obs| - 1], row, col);
    }
  }

  lemma {:induction false} TallyLast(obs: seq<PileupAlignment>, k: Kind)
    requires |obs| > 0
    ensures Tally(obs, k) == Tally(obs[..|obs| - 1], k) + (if KindOf(obs[|obs| - 1]) == k then 1 else 0)
  {
    if |obs| > 1 {
      assert obs[1..][..|obs| - 2] == obs[..|obs| - 1][1..];
      TallyLast(obs[1..], k);
    }
  }

  /** The count of each base row is the number of observations called as that base. */
  lemma {:induction false} CountIsTally(obs: seq<PileupAlignment>, b: nat)
    requires b < 4
    ensures Cell(obs, b, COUNT) == Tally(obs, Called(b))
  {
    if |obs| > 0 {
      CountIsTally(obs[..|obs| - 1], b);
      TallyLast(obs, Called(b));
    }
  }

  /** The ambiguous count is the number of N observations. */
  lemma {:induction false} AmbiguousIsTally(obs: seq<PileupAlignment>)
    ensures AmbiguousCount(obs) == Tally(obs, Ambiguous)
  {
    if |obs| > 0 {
      AmbiguousIsTally(obs[..|obs| - 1]);
      TallyLast(obs, Ambiguous);
    }
  }

  /**
   * Without a malformed observation, every observation is a deletion, an N or
   * one of the four bases, so the depth is the deletions plus the ambiguous
   * count plus the total count.
   */
  lemma {:induction false} DepthPartition(obs: seq<PileupAlignment>)
    requires FirstError(obs) == None
    ensures |obs| ==
      Tally(obs, Deleted) + Tally(obs, Ambiguous) +
      Tally(obs, Called(0)) + Tally(obs, Called(1)) + Tally(obs, Called(2)) + Tally(obs, Called(3))
  {
    if |obs| > 0 {
      DepthPartition(obs[1..]);
    }
  }

  /** The invariants of every tuple the computation returns. */
  lemma TupleInvariants(p: PileupPosition)
    requires Stats(p).Success?
    ensures var t := Stats(p).value; var obs := p.pileupAlignments;
      && t.refId == p.refId
      && t.position == p.position + 1
      && |t.ntData| == ROWS
      && (forall row :: 0 <= row < ROWS ==> |t.ntData[row]| == COLS)
      && (forall col :: 0 <= col < 4 ==>
            t.ntData[TOTAL][col] == t.ntData[0][col] + t.ntData[1][col] + t.ntData[2][col] + t.ntData[3][col])
      && (forall row :: 0 <= row < ROWS ==> t.ntData[row][4] == 0 && t.ntData[row][5] == 0)
      && (forall b :: 0 <= b < 4 ==> t.ntData[b][COUNT] == Tally(obs, Called(b)))
      && t.ambiguous == Tally(obs, Ambiguous)
      && t.depth == |obs| == Tally(obs, Deleted) + t.ambiguous + t.ntData[TOTAL][COUNT]
  {
    var obs := p.pileupAlignments;
    forall col | 0 <= col < 4
      ensures Cell(obs, TOTAL, col) == Cell(obs, 0, col) + Cell(obs, 1, col) + Cell(obs, 2, col) + Cell(obs, 3, col)
    {
      TotalIsSum(obs, col);
    }
    forall row | 0 <= row < ROWS
      ensures Cell(obs, row, 4) == 0 && Cell(obs, row, 5) == 0
    {
      UnusedColumnsZero(obs, row, 4);
      UnusedColumnsZero(obs, row, 5);
    }
    forall b: nat | b < 4
      ensures Cell(obs, b, COUNT) == Tally(obs, Called(b))
    {
      CountIsTally(obs, b);
    }
    AmbiguousIsTally(obs);
    DepthPartition(obs);
    TotalIsSum(obs, COUNT);
  }

  // ---------------------------------------------------------------------------
  // Major and minor base.

  /**
   * The returned minor index is the base after the first-scan major,
   * cyclically, and never equals it; the returned major differs from the
   * returned minor and is either the first-scan major (the lowest index with
   * the largest count) or a base whose count exceeds the minor base's.
   */
  lemma MajorMinorSelection(p: PileupPosition)
    requires Stats(p).Success?
    ensures var t := Stats(p).value;
      var counts := Counts(p.pileupAlignments);
      var firstMajor := FirstScanMajor(counts);
      && t.minorBaseIdx == (firstMajor + 1) % 4
      && t.minorBaseIdx != firstMajor
      && 0 <= t.majorBaseIdx < 4
      && t.majorBaseIdx != t.minorBaseIdx
      && (t.majorBaseIdx == firstMajor || counts[t.majorBaseIdx] > counts[t.minorBaseIdx])
  {
    SecondScanMajorSelection(Counts(p.pileupAlignments), FirstScanMajor(Counts(p.pileupAlignments)));
  }

  /**
   * Counts (5, 0, 3, 0): the first scan picks A (0), the minor index is C (1),
   * and the second scan overwrites the major index with G (2), although A has
   * the larger count.
   */
  lemma MajorNotMaximum()
    ensures FirstScanMajor([5, 0, 3, 0]) == 0
    ensures MinorOf(FirstScanMajor([5, 0, 3, 0])) == 1
    ensures SecondScanMajor([5, 0, 3, 0], FirstScanMajor([5, 0, 3, 0])) == 2
  {
  }

  // ---------------------------------------------------------------------------
  // Worked positions.

  /**
   * Two forward/reverse A reads and one forward T read. The returned major is
   * T (3) although A has two reads: the second scan compares against C's zero
   * count and the last base above it is T. The reverse read at offset 9 of 10
   * adds 10 - 9 - 1 + 1 = 1 to the signal column.
   */
  lemma ThreeReadPosition()
    ensures
      var r1 := PileupAlignment(Alignment(seq(10, _ => CHAR_A), seq(10, _ => 63), 60, 10, false), 0, false);
      var r2 := PileupAlignment(Alignment(seq(10, _ => CHAR_A), seq(10, _ => 53), 50, 10, true), 9, false);
      var r3 := PileupAlignment(Alignment(seq(10, _ => CHAR_T), seq(10, _ => 43), 40, 10, false), 5, false);
      Stats(PileupPosition(0, 99, [r1, r2, r3])) ==
        Success(PileupTuple(0, 100,
          [[2, 116, 110, 1, 0, 0], [0, 0, 0, 0, 0, 0], [0, 0, 0, 0, 0, 0], [1, 43, 40, 5, 0, 0], [3, 159, 150, 6, 0, 0]],
          3, 1, 0, 3))
  {
    var r1 := PileupAlignment(Alignment(seq(10, _ => CHAR_A), seq(10, _ => 63), 60, 10, false), 0, false);
    var r2 := PileupAlignment(Alignment(seq(10, _ => CHAR_A), seq(10, _ => 53), 50, 10, true), 9, false);
    var r3 := PileupAlignment(Alignment(seq(10, _ => CHAR_T), seq(10, _ => 43), 40, 10, false), 5, false);
    var obs := [r1, r2, r3];
    assert KindOf(r1) == Called(0) && KindOf(r2) == Called(0) && KindOf(r3) == Called(3);
    forall row, col ensures Cell(obs, row, col) == Contribution(r1, row, col) + Contribution(r2, row, col) + Contribution(r3, row, col) {
      assert obs[..2] == [r1, r2] && [r1, r2][..1] == [r1] && [r1][..0] == [];
      assert Cell(obs, row, col) == Cell([r1, r2], row, col) + Contribution(r3, row, col);
      assert Cell([r1, r2], row, col) == Cell([r1], row, col) + Contribution(r2, row, col);
      assert Cell([r1], row, col) == Contribution(r1, row, col);
    }
    assert obs[1..] == [r2, r3] && [r2, r3][1..] == [r3] && [r3][1..] == [];
    assert FirstError([r3]) == None;
    assert FirstError([r2, r3]) == None;
    assert FirstError(obs) == None;
    assert obs[..2] == [r1, r2] && [r1, r2][..1] == [r1] && [r1][..0] == [];
    assert AmbiguousCount([r1]) == 0;
    assert AmbiguousCount([r1, r2]) == 0;
    assert AmbiguousCount(obs) == 0;
    assert Table(obs)[0] == [2, 116, 110, 1, 0, 0];
    assert Table(obs)[1] == [0, 0, 0, 0, 0, 0];
    assert Table(obs)[2] == [0, 0, 0, 0, 0, 0];
    assert Table(obs)[3] == [1, 43, 40, 5, 0, 0];
    assert Table(obs)[4] == [3, 159, 150, 6, 0, 0];
    assert Table(obs) ==
      [[2, 116, 110, 1, 0, 0], [0, 0, 0, 0, 0, 0], [0, 0, 0, 0, 0, 0], [1, 43, 40, 5, 0, 0], [3, 159, 150, 6, 0, 0]];
  }

  /** A single lower-case n: only the ambiguous count moves, and the indices keep their defaults A and C. */
  lemma AmbiguousOnlyPosition()
    ensures
      var n := PileupAlignment(Alignment([110], [63], 60, 1, false), 0, false);
      Stats(PileupPosition(3, 0, [n])) ==
        Success(PileupTuple(3, 1, seq(ROWS, _ => seq(COLS, _ => 0)), 0, 1, 1, 1))
  {
    var n := PileupAlignment(Alignment([110], [63], 60, 1, false), 0, false);
    assert KindOf(n) == Ambiguous;
    forall row, col ensures Cell([n], row, col) == 0 {
      assert [n][..0] == [];
    }
    forall row | 0 <= row < ROWS ensures Table([n])[row] == seq(COLS, _ => 0) {
    }
    assert Table([n]) == seq(ROWS, _ => seq(COLS, _ => 0));
  }

  /** A base other than A, C, G, T or N raises, whatever follows it, and a deletion before it is skipped. */
  lemma MalformedPosition(rest: seq<PileupAlignment>)
    ensures
      var del := PileupAlignment(Alignment([], [], 0, 0, false), 7, true);
      var x := PileupAlignment(Alignment([88], [63], 60, 1, false), 0, false);
      Stats(PileupPosition(0, 5, [del, x] + rest)) == Failure(UnrecognizedBase(88))
  {
    var del := PileupAlignment(Alignment([], [], 0, 0, false), 7, true);
    var x := PileupAlignment(Alignment([88], [63], 60, 1, false), 0, false);
    FirstErrorIsFirstMalformed([del, x] + rest, 1);
  }
}
