/**
 * Facts about the chord data of constants.ts and utils/musicTheory.ts that
 * the search relies on: every library symbol is distinct, every one has an
 * entry in the interval record (at the same position), and every interval
 * list starts at the root and rises strictly.
 */
module LibraryFacts {
  import opened Wrappers
  import opened Constants
  import opened ChordIntervals

  predicate ValidEntry(c: int, e: int) {
    0 <= c < |ChordLibrary| && 0 <= e < |ChordLibrary[c].chords|
  }

  predicate IsLibrarySymbol(symbol: string) {
    exists c, e :: 0 <= c < |ChordLibrary| && 0 <= e < |ChordLibrary[c].chords| && ChordLibrary[c].chords[e].symbol == symbol
  }

  /** The shape of an interval list: the root first, then strictly rising offsets. */
  predicate IntervalShape(intervals: seq<nat>) {
    |intervals| > 0 && intervals[0] == 0 &&
    forall i, j :: 0 <= i < j < |intervals| ==> intervals[i] < intervals[j]
  }

  /**
   * Where a symbol sits in the library, as (category, entry). A symbol's rank
   * determines its position, so two positions with equal symbols coincide.
   */
  ghost function SymbolRank(symbol: string): Option<(int, int)> {
    match |symbol|
    case 0 =>
      Some((0, 0))
    case 1 =>
      (match symbol[0]
      case '5' =>
        Some((0, 6))
      case '6' =>
        Some((2, 3))
      case '7' =>
        Some((3, 1))
      case '9' =>
        Some((7, 1))
      case 'm' =>
        Some((0, 1))
      case '\U{00B0}' =>
        Some((0, 3))
      case _ => None)
    case 2 =>
      (match symbol[1]
      case '1' =>
        Some((8, 0))
      case '3' =>
        Some((9, 0))
      case '5' =>
        Some((0, 4))
      case '6' =>
        Some((2, 4))
      case '7' =>
        (match symbol[0]
        case 'm' =>
          Some((3, 2))
        case '\U{00B0}' =>
          Some((3, 4))
        case _ => None)
      case '9' =>
        (match symbol[0]
        case 'm' =>
          Some((7, 2))
        case '\U{00B0}' =>
          Some((7, 9))
        case _ => None)
      case _ => None)
    case 3 =>
      (match symbol[0]
      case '6' =>
        Some((2, 5))
      case '7' =>
        (match symbol[1]
        case '#' =>
          (match symbol[2]
          case '5' =>
            Some((5, 1))
          case '9' =>
            Some((5, 3))
          case _ => None)
        case 'b' =>
          (match symbol[2]
          case '5' =>
            Some((5, 0))
          case '9' =>
            Some((5, 2))
          case _ => None)
        case _ => None)
      case '9' =>
        Some((7, 5))
      case 'a' =>
        Some((0, 2))
      case 'm' =>
        (match symbol[2]
        case '1' =>
          Some((8, 1))
        case '3' =>
          Some((9, 1))
        case '5' =>
          Some((0, 5))
        case _ => None)
      case _ => None)
    case 4 =>
      (match symbol[1]
      case '#' =>
        Some((8, 5))
      case '7' =>
        (match symbol[2]
        case '#' =>
          Some((4, 6))
        case 'b' =>
          (match symbol[3]
          case '5' =>
            Some((3, 3))
          case '9' =>
            Some((4, 5))
          case _ => None)
        case _ => None)
      case '9' =>
        Some((7, 7))
      case 'a' =>
        (match symbol[3]
        case '7' =>
          Some((3, 0))
        case '9' =>
          Some((7, 0))
        case _ => None)
      case 'b' =>
        Some((9, 6))
      case 'd' =>
        Some((2, 0))
      case 'u' =>
        (match symbol[3]
        case '2' =>
          Some((1, 0))
        case '4' =>
          Some((1, 1))
        case _ => None)
      case _ => None)
    case 5 =>
      (match symbol[1]
      case '#' =>
        (match symbol[3]
        case '#' =>
          Some((5, 6))
        case 'b' =>
          Some((5, 5))
        case _ => None)
      case '(' =>
        Some((7, 6))
      case '7' =>
        Some((8, 7))
      case 'a' =>
        (match symbol[4]
        case '1' =>
          Some((8, 2))
        case '3' =>
          Some((9, 2))
        case '6' =>
          Some((5, 7))
        case _ => None)
      case 'b' =>
        Some((5, 4))
      case 's' =>
        (match symbol[4]
        case '2' =>
          Some((6, 0))
        case '4' =>
          Some((6, 1))
        case _ => None)
      case 'u' =>
        Some((1, 3))
      case _ => None)
    case 6 =>
      (match symbol[4]
      case '#' =>
        (match symbol[3]
        case '7' =>
          (match symbol[5]
          case '5' =>
            Some((4, 1))
          case '9' =>
            Some((4, 4))
          case _ => None)
        case '9' =>
          Some((7, 4))
        case _ => None)
      case '1' =>
        (match symbol[0]
        case '7' =>
          Some((8, 8))
        case 'a' =>
          Some((2, 2))
        case _ => None)
      case '2' =>
        Some((6, 4))
      case '3' =>
        Some((3, 6))
      case '9' =>
        (match symbol[0]
        case '1' =>
          Some((9, 4))
        case '\U{00B0}' =>
          Some((7, 10))
        case _ => None)
      case 'b' =>
        (match symbol[0]
        case 'm' =>
          (match symbol[5]
          case '5' =>
            Some((4, 0))
          case '9' =>
            Some((4, 3))
          case _ => None)
        case 's' =>
          Some((1, 2))
        case _ => None)
      case _ => None)
    case 7 =>
      (match symbol[3]
      case '#' =>
        Some((9, 5))
      case '(' =>
        Some((8, 9))
      case '7' =>
        Some((8, 6))
      case '9' =>
        Some((8, 4))
      case 'a' =>
        (match symbol[5]
        case '7' =>
          Some((3, 5))
        case '9' =>
          Some((7, 3))
        case _ => None)
      case 'b' =>
        Some((8, 10))
      case 'd' =>
        Some((2, 1))
      case 'n' =>
        Some((9, 7))
      case _ => None)
    case 8 =>
      (match symbol[6]
      case '1' =>
        Some((8, 3))
      case '3' =>
        Some((9, 3))
      case '9' =>
        Some((7, 8))
      case 's' =>
        (match symbol[7]
        case '2' =>
          Some((6, 2))
        case '4' =>
          Some((6, 3))
        case _ => None)
      case _ => None)
    case 9 =>
      (match symbol[4]
      case '2' =>
        Some((6, 6))
      case '4' =>
        Some((6, 7))
      case 'j' =>
        (match symbol[8]
        case '5' =>
          Some((4, 2))
        case '9' =>
          Some((4, 7))
        case _ => None)
      case 's' =>
        Some((6, 5))
      case _ => None)
    case 10 =>
      (match symbol[7]
      case '#' =>
        Some((4, 9))
      case '1' =>
        Some((9, 8))
      case 'b' =>
        Some((4, 8))
      case _ => None)
    case _ => None
  }

  lemma RanksOfTriadsAndPowerchords()
    ensures forall e :: 0 <= e < |TriadsAndPowerchords.chords| ==> SymbolRank(TriadsAndPowerchords.chords[e].symbol) == Some((0, e))
  {
  }

  lemma RanksOfSuspendedChords()
    ensures forall e :: 0 <= e < |SuspendedChords.chords| ==> SymbolRank(SuspendedChords.chords[e].symbol) == Some((1, e))
  {
  }

  lemma RanksOfSixthAndAddedNoteChords()
    ensures forall e :: 0 <= e < |SixthAndAddedNoteChords.chords| ==> SymbolRank(SixthAndAddedNoteChords.chords[e].symbol) == Some((2, e))
  {
  }

  lemma RanksOfBasicSeventhChords()
    ensures forall e :: 0 <= e < |BasicSeventhChords.chords| ==> SymbolRank(BasicSeventhChords.chords[e].symbol) == Some((3, e))
  {
  }

  lemma RanksOfAlteredMajorAndMinorSevenths()
    ensures forall e :: 0 <= e < |AlteredMajorAndMinorSevenths.chords| ==> SymbolRank(AlteredMajorAndMinorSevenths.chords[e].symbol) == Some((4, e))
  {
  }

  lemma RanksOfAlteredDominantSevenths()
    ensures forall e :: 0 <= e < |AlteredDominantSevenths.chords| ==> SymbolRank(AlteredDominantSevenths.chords[e].symbol) == Some((5, e))
  {
  }

  lemma RanksOfSuspendedSeventhChords()
    ensures forall e :: 0 <= e < |SuspendedSeventhChords.chords| ==> SymbolRank(SuspendedSeventhChords.chords[e].symbol) == Some((6, e))
  {
  }

  lemma RanksOfExtendedNinthChords()
    ensures forall e :: 0 <= e < |ExtendedNinthChords.chords| ==> SymbolRank(ExtendedNinthChords.chords[e].symbol) == Some((7, e))
  {
  }

  lemma RanksOfExtendedEleventhChords()
    ensures forall e :: 0 <= e < |ExtendedEleventhChords.chords| ==> SymbolRank(ExtendedEleventhChords.chords[e].symbol) == Some((8, e))
  {
  }

  lemma RanksOfExtendedThirteenthChords()
    ensures forall e :: 0 <= e < |ExtendedThirteenthChords.chords| ==> SymbolRank(ExtendedThirteenthChords.chords[e].symbol) == Some((9, e))
  {
  }

  lemma KeysOfTriadsAndPowerchords()
    ensures |TriadsAndPowerchordsIntervals| == |TriadsAndPowerchords.chords|
    ensures forall e :: 0 <= e < |TriadsAndPowerchords.chords| ==> TriadsAndPowerchordsIntervals[e].0 == TriadsAndPowerchords.chords[e].symbol
    ensures forall e :: 0 <= e < |TriadsAndPowerchords.chords| ==> IntervalShape(TriadsAndPowerchordsIntervals[e].1)
  {
  }

  lemma KeysOfSuspendedChords()
    ensures |SuspendedChordsIntervals| == |SuspendedChords.chords|
    ensures forall e :: 0 <= e < |SuspendedChords.chords| ==> SuspendedChordsIntervals[e].0 == SuspendedChords.chords[e].symbol
    ensures forall e :: 0 <= e < |SuspendedChords.chords| ==> IntervalShape(SuspendedChordsIntervals[e].1)
  {
  }

  lemma KeysOfSixthAndAddedNoteChords()
    ensures |SixthAndAddedNoteChordsIntervals| == |SixthAndAddedNoteChords.chords|
    ensures forall e :: 0 <= e < |SixthAndAddedNoteChords.chords| ==> SixthAndAddedNoteChordsIntervals[e].0 == SixthAndAddedNoteChords.chords[e].symbol
    ensures forall e :: 0 <= e < |SixthAndAddedNoteChords.chords| ==> IntervalShape(SixthAndAddedNoteChordsIntervals[e].1)
  {
  }

  lemma KeysOfBasicSeventhChords()
    ensures |BasicSeventhChordsIntervals| == |BasicSeventhChords.chords|
    ensures forall e :: 0 <= e < |BasicSeventhChords.chords| ==> BasicSeventhChordsIntervals[e].0 == BasicSeventhChords.chords[e].symbol
    ensures forall e :: 0 <= e < |BasicSeventhChords.chords| ==> IntervalShape(BasicSeventhChordsIntervals[e].1)
  {
  }

  lemma KeysOfAlteredMajorAndMinorSevenths()
    ensures |AlteredMajorAndMinorSeventhsIntervals| == |AlteredMajorAndMinorSevenths.chords|
    ensures forall e :: 0 <= e < |AlteredMajorAndMinorSevenths.chords| ==> AlteredMajorAndMinorSeventhsIntervals[e].0 == AlteredMajorAndMinorSevenths.chords[e].symbol
    ensures forall e :: 0 <= e < |AlteredMajorAndMinorSevenths.chords| ==> IntervalShape(AlteredMajorAndMinorSeventhsIntervals[e].1)
  {
  }

  lemma KeysOfAlteredDominantSevenths()
    ensures |AlteredDominantSeventhsIntervals| == |AlteredDominantSevenths.chords|
    ensures forall e :: 0 <= e < |AlteredDominantSevenths.chords| ==> AlteredDominantSeventhsIntervals[e].0 == AlteredDominantSevenths.chords[e].symbol
    ensures forall e :: 0 <= e < |AlteredDominantSevenths.chords| ==> IntervalShape(AlteredDominantSeventhsIntervals[e].1)
  {
  }

  lemma KeysOfSuspendedSeventhChords()
    ensures |SuspendedSeventhChordsIntervals| == |SuspendedSeventhChords.chords|
    ensures forall e :: 0 <= e < |SuspendedSeventhChords.chords| ==> SuspendedSeventhChordsIntervals[e].0 == SuspendedSeventhChords.chords[e].symbol
    ensures forall e :: 0 <= e < |SuspendedSeventhChords.chords| ==> IntervalShape(SuspendedSeventhChordsIntervals[e].1)
  {
  }

  lemma KeysOfExtendedNinthChords()
    ensures |ExtendedNinthChordsIntervals| == |ExtendedNinthChords.chords|
    ensures forall e :: 0 <= e < |ExtendedNinthChords.chords| ==> ExtendedNinthChordsIntervals[e].0 == ExtendedNinthChords.chords[e].symbol
    ensures forall e :: 0 <= e < |ExtendedNinthChords.chords| ==> IntervalShape(ExtendedNinthChordsIntervals[e].1)
  {
  }

  lemma KeysOfExtendedEleventhChords()
    ensures |ExtendedEleventhChordsIntervals| == |ExtendedEleventhChords.chords|
    ensures forall e :: 0 <= e < |ExtendedEleventhChords.chords| ==> ExtendedEleventhChordsIntervals[e].0 == ExtendedEleventhChords.chords[e].symbol
    ensures forall e :: 0 <= e < |ExtendedEleventhChords.chords| ==> IntervalShape(ExtendedEleventhChordsIntervals[e].1)
  {
  }

  lemma KeysOfExtendedThirteenthChords()
    ensures |ExtendedThirteenthChordsIntervals| == |ExtendedThirteenthChords.chords|
    ensures forall e :: 0 <= e < |ExtendedThirteenthChords.chords| ==> ExtendedThirteenthChordsIntervals[e].0 == ExtendedThirteenthChords.chords[e].symbol
    ensures forall e :: 0 <= e < |ExtendedThirteenthChords.chords| ==> IntervalShape(ExtendedThirteenthChordsIntervals[e].1)
  {
  }

  lemma RankAt(c: int, e: int)
    requires ValidEntry(c, e)
    ensures SymbolRank(ChordLibrary[c].chords[e].symbol) == Some((c, e))
  {
    if c == 0 { RanksOfTriadsAndPowerchords(); }
    else if c == 1 { RanksOfSuspendedChords(); }
    else if c == 2 { RanksOfSixthAndAddedNoteChords(); }
    else if c == 3 { RanksOfBasicSeventhChords(); }
    else if c == 4 { RanksOfAlteredMajorAndMinorSevenths(); }
    else if c == 5 { RanksOfAlteredDominantSevenths(); }
    else if c == 6 { RanksOfSuspendedSeventhChords(); }
    else if c == 7 { RanksOfExtendedNinthChords(); }
    else if c == 8 { RanksOfExtendedEleventhChords(); }
    else if c == 9 { RanksOfExtendedThirteenthChords(); }
  }

  lemma KeysAt(c: int, e: int)
    requires ValidEntry(c, e)
    ensures |IntervalGroups| == |ChordLibrary| && |IntervalGroups[c]| == |ChordLibrary[c].chords|
    ensures IntervalGroups[c][e].0 == ChordLibrary[c].chords[e].symbol
    ensures IntervalShape(IntervalGroups[c][e].1)
  {
    if c == 0 { KeysOfTriadsAndPowerchords(); }
    else if c == 1 { KeysOfSuspendedChords(); }
    else if c == 2 { KeysOfSixthAndAddedNoteChords(); }
    else if c == 3 { KeysOfBasicSeventhChords(); }
    else if c == 4 { KeysOfAlteredMajorAndMinorSevenths(); }
    else if c == 5 { KeysOfAlteredDominantSevenths(); }
    else if c == 6 { KeysOfSuspendedSeventhChords(); }
    else if c == 7 { KeysOfExtendedNinthChords(); }
    else if c == 8 { KeysOfExtendedEleventhChords(); }
    else if c == 9 { KeysOfExtendedThirteenthChords(); }
  }

  lemma GroupSizes()
    ensures |IntervalGroups| == |ChordLibrary| == 10
    ensures forall c :: 0 <= c < |ChordLibrary| ==> |IntervalGroups[c]| == |ChordLibrary[c].chords|
  {
  }

  /** No two positions of the library share a symbol. */
  lemma LibrarySymbolsDistinct(c1: int, e1: int, c2: int, e2: int)
    requires ValidEntry(c1, e1) && ValidEntry(c2, e2)
    requires ChordLibrary[c1].chords[e1].symbol == ChordLibrary[c2].chords[e2].symbol
    ensures c1 == c2 && e1 == e2
  {
    RankAt(c1, e1);
    RankAt(c2, e2);
  }

  /**
   * Every library chord has an interval list in the record: the one at the
   * same position, and it starts at the root and rises strictly.
   */
  lemma IntervalsOfLibraryChord(c: int, e: int)
    requires ValidEntry(c, e)
    ensures IntervalsFor(ChordLibrary[c].chords[e].symbol) == Some(IntervalGroups[c][e].1)
    ensures IntervalShape(IntervalGroups[c][e].1)
  {
    GroupSizes();
    KeysAt(c, e);
    var symbol := ChordLibrary[c].chords[e].symbol;
    IntervalsForSpec(symbol);
    var r := IntervalsFor(symbol);
    var g, e2 :| 0 <= g < |IntervalGroups| && 0 <= e2 < |IntervalGroups[g]| && IntervalGroups[g][e2] == (symbol, r.value);
    KeysAt(g, e2);
    LibrarySymbolsDistinct(c, e, g, e2);
  }

  /** The record has an entry for a symbol exactly when the library lists that symbol. */
  lemma IntervalsExactlyForLibrarySymbols(symbol: string)
    ensures IntervalsFor(symbol).Some? <==> IsLibrarySymbol(symbol)
  {
    GroupSizes();
    IntervalsForSpec(symbol);
    if IntervalsFor(symbol).Some? {
      var g, e :| 0 <= g < |IntervalGroups| && 0 <= e < |IntervalGroups[g]| && IntervalGroups[g][e].0 == symbol;
      KeysAt(g, e);
    }
    if IsLibrarySymbol(symbol) {
      var c, e :| ValidEntry(c, e) && ChordLibrary[c].chords[e].symbol == symbol;
      IntervalsOfLibraryChord(c, e);
    }
  }
}
