/**
 * The values that flow through the pileup core: the parts of a bamtools
 * alignment the statistics read, the per-position observation set the
 * windowing engine hands to its visitor, and the statistics record that is
 * handed back to Python.
 */
module PileupTypes {

  /** One byte of a C++ std::string. */
  newtype byte = b: int | 0 <= b < 256

  /** The fields of a bamtools BamAlignment that the pileup statistics read. */
  datatype Alignment = Alignment(
    queryBases: seq<byte>,  // QueryBases
    qualities: seq<byte>,   // Qualities, one character per base
    mapQuality: nat,        // MapQuality (uint16_t)
    length: int,            // Length of the query sequence
    isReverseStrand: bool)  // IsReverseStrand()

  /** One read covering a position: the read, the offset of the position in it, and the deletion flag. */
  datatype PileupAlignment = PileupAlignment(
    alignment: Alignment,
    positionInAlignment: int,
    isCurrentDeletion: bool)

  /** A finalized position as the windowing engine delivers it; `position` is 0-based. */
  datatype PileupPosition = PileupPosition(
    refId: int,
    position: int,
    pileupAlignments: seq<PileupAlignment>)

  /**
   * The tuple built for one position. `position` is 1-based. `ntData` is the
   * 5x6 table: rows A, C, G, T and Total; columns count, quality sum,
   * mapping-quality sum, distance-plus-strand signal and two unused slots.
   * `depth` is the number of observations at the position, the denominator
   * the entropy is computed with.
   */
  datatype PileupTuple = PileupTuple(
    refId: int,
    position: int,
    ntData: seq<seq<int>>,
    majorBaseIdx: int,
    minorBaseIdx: int,
    ambiguous: nat,
    depth: nat)

  /** The runtime errors the core raises. */
  datatype Error =
    | UnrecognizedBase(base: byte)   // a base that is not A, C, G, T or N
    | OutOfRange                     // std::string::at past the end of QueryBases or Qualities
    | InvalidRefName(refName: string)
}
