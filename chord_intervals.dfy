/**
 * The note-name tables and the `CHORD_INTERVALS` record of utils/musicTheory.ts.
 * The record is one literal in the source; here it is written as ten
 * blocks, one per comment-headed block of the record, in the same order.
 */
module ChordIntervals {
  import opened Wrappers

  /** `ALL_NOTES`: the sharp spelling of pitch classes 0..11. */
  const AllNotes: seq<string> := ["C", "C#", "D", "D#", "E", "F", "F#", "G", "G#", "A", "A#", "B"]

  /** `ALL_NOTES_FLAT`: the flat spelling of pitch classes 0..11. */
  const AllNotesFlat: seq<string> := ["C", "Db", "D", "Eb", "E", "F", "Gb", "G", "Ab", "A", "Bb", "B"]

  /** An entry of the record: a chord symbol and its semitone offsets from the root. */
  type IntervalEntry = (string, seq<nat>)

  const TriadsAndPowerchordsIntervals: seq<IntervalEntry> := [
    ("", [0, 4, 7]),
    ("m", [0, 3, 7]),
    ("aug", [0, 4, 8]),
    ("\U{00B0}", [0, 3, 6]),
    ("b5", [0, 4, 6]),
    ("m#5", [0, 3, 8]),
    ("5", [0, 7])
  ]

  const SuspendedChordsIntervals: seq<IntervalEntry> := [
    ("sus2", [0, 2, 7]),
    ("sus4", [0, 5, 7]),
    ("sus2b5", [0, 2, 6]),
    ("sus24", [0, 2, 5, 7])
  ]

  const SixthAndAddedNoteChordsIntervals: seq<IntervalEntry> := [
    ("add9", [0, 4, 7, 14]),
    ("m(add9)", [0, 3, 7, 14]),
    ("add#11", [0, 4, 7, 18]),
    ("6", [0, 4, 7, 9]),
    ("m6", [0, 3, 7, 9]),
    ("6/9", [0, 4, 7, 9, 14])
  ]

  const BasicSeventhChordsIntervals: seq<IntervalEntry> := [
    ("maj7", [0, 4, 7, 11]),
    ("7", [0, 4, 7, 10]),
    ("m7", [0, 3, 7, 10]),
    ("m7b5", [0, 3, 6, 10]),
    ("\U{00B0}7", [0, 3, 6, 9]),
    ("m(maj7)", [0, 3, 7, 11]),
    ("7(no3)", [0, 7, 10])
  ]

  const AlteredMajorAndMinorSeventhsIntervals: seq<IntervalEntry> := [
    ("maj7b5", [0, 4, 6, 11]),
    ("maj7#5", [0, 4, 8, 11]),
    ("m(maj7)b5", [0, 3, 6, 11]),
    ("maj7b9", [0, 4, 7, 11, 13]),
    ("maj7#9", [0, 4, 7, 11, 15]),
    ("m7b9", [0, 3, 7, 10, 13]),
    ("m7#9", [0, 3, 7, 10, 15]),
    ("m(maj7)b9", [0, 3, 7, 11, 13]),
    ("maj7#5(b9)", [0, 4, 8, 11, 13]),
    ("maj7#5(#9)", [0, 4, 8, 11, 15])
  ]

  const AlteredDominantSeventhsIntervals: seq<IntervalEntry> := [
    ("7b5", [0, 4, 6, 10]),
    ("7#5", [0, 4, 8, 10]),
    ("7b9", [0, 4, 7, 10, 13]),
    ("7#9", [0, 4, 7, 10, 15]),
    ("7b5b9", [0, 4, 6, 10, 13]),
    ("7#5b9", [0, 4, 8, 10, 13]),
    ("7#5#9", [0, 4, 8, 10, 15]),
    ("7add6", [0, 4, 7, 9, 10])
  ]

  const SuspendedSeventhChordsIntervals: seq<IntervalEntry> := [
    ("7sus2", [0, 2, 7, 10]),
    ("7sus4", [0, 5, 7, 10]),
    ("maj7sus2", [0, 2, 7, 11]),
    ("maj7sus4", [0, 5, 7, 11]),
    ("7sus24", [0, 2, 5, 7, 10]),
    ("maj7sus24", [0, 2, 5, 7, 11]),
    ("7sus2add6", [0, 2, 7, 9, 10]),
    ("7sus4add6", [0, 5, 7, 9, 10])
  ]

  const ExtendedNinthChordsIntervals: seq<IntervalEntry> := [
    ("maj9", [0, 4, 7, 11, 14]),
    ("9", [0, 4, 7, 10, 14]),
    ("m9", [0, 3, 7, 10, 14]),
    ("m(maj9)", [0, 3, 7, 11, 14]),
    ("maj9#5", [0, 4, 8, 11, 14]),
    ("9#5", [0, 4, 8, 10, 14]),
    ("9(b5)", [0, 4, 6, 10, 14]),
    ("m9b5", [0, 3, 6, 10, 14]),
    ("m7b5(b9)", [0, 3, 6, 10, 13]),
    ("\U{00B0}9", [0, 3, 6, 9, 14]),
    ("\U{00B0}7(b9)", [0, 3, 6, 9, 13])
  ]

  const ExtendedEleventhChordsIntervals: seq<IntervalEntry> := [
    ("11", [0, 4, 7, 10, 14, 17]),
    ("m11", [0, 3, 7, 10, 14, 17]),
    ("maj11", [0, 4, 7, 11, 14, 17]),
    ("m(maj11)", [0, 3, 7, 11, 14, 17]),
    ("maj9#11", [0, 4, 7, 11, 14, 18]),
    ("7#11", [0, 4, 7, 10, 18]),
    ("maj7#11", [0, 4, 7, 11, 18]),
    ("m7#11", [0, 3, 7, 10, 18]),
    ("7#9#11", [0, 4, 7, 10, 15, 18]),
    ("m11(b9)", [0, 3, 7, 10, 13, 17]),
    ("m11b5b9", [0, 3, 6, 10, 13, 17])
  ]

  const ExtendedThirteenthChordsIntervals: seq<IntervalEntry> := [
    ("13", [0, 4, 7, 10, 14, 21]),
    ("m13", [0, 3, 7, 10, 14, 21]),
    ("maj13", [0, 4, 7, 11, 14, 21]),
    ("m(maj13)", [0, 3, 7, 11, 14, 21]),
    ("13(b9)", [0, 4, 7, 10, 13, 21]),
    ("13(#11)", [0, 4, 7, 10, 14, 18, 21]),
    ("7b13", [0, 4, 7, 10, 20]),
    ("13(no9)", [0, 4, 7, 10, 17, 21]),
    ("7sus4(b13)", [0, 5, 7, 10, 20])
  ]

  /** `CHORD_INTERVALS`, block by block in source order. */
  const IntervalGroups: seq<seq<IntervalEntry>> := [
    TriadsAndPowerchordsIntervals, SuspendedChordsIntervals, SixthAndAddedNoteChordsIntervals, BasicSeventhChordsIntervals, AlteredMajorAndMinorSeventhsIntervals, AlteredDominantSeventhsIntervals, SuspendedSeventhChordsIntervals, ExtendedNinthChordsIntervals, ExtendedEleventhChordsIntervals, ExtendedThirteenthChordsIntervals
  ]

  /**
   * Looking a symbol up in the entries of one block from index `from` on;
   * the first entry with the symbol wins.
   */
  function LookupFrom(entries: seq<IntervalEntry>, symbol: string, from: nat): Option<seq<nat>>
    requires from <= |entries|
    decreases |entries| - from
  {
    if from == |entries| then None
    else if entries[from].0 == symbol then Some(entries[from].1)
    else LookupFrom(entries, symbol, from + 1)
  }

  /** The block lookup finds nothing exactly when no entry has the symbol, and otherwise an entry's list. */
  lemma {:induction false} LookupFromSpec(entries: seq<IntervalEntry>, symbol: string, from: nat)
    requires from <= |entries|
    ensures LookupFrom(entries, symbol, from).None? <==> forall e :: from <= e < |entries| ==> entries[e].0 != symbol
    ensures LookupFrom(entries, symbol, from).Some? ==>
      exists e :: from <= e < |entries| && entries[e] == (symbol, LookupFrom(entries, symbol, from).value)
    decreases |entries| - from
  {
    if from < |entries| && entries[from].0 != symbol {
      LookupFromSpec(entries, symbol, from + 1);
    }
  }

  /**
   * Looking a symbol up in the blocks from block `c` on; the first block
   * that has the symbol decides.
   */
  function LookupGroupsFrom(groups: seq<seq<IntervalEntry>>, symbol: string, c: nat): Option<seq<nat>>
    requires c <= |groups|
    decreases |groups| - c
  {
    if c == |groups| then None
    else match LookupFrom(groups[c], symbol, 0)
      case Some(intervals) => Some(intervals)
      case None => LookupGroupsFrom(groups, symbol, c + 1)
  }

  /** The record lookup finds nothing exactly when no block has the symbol, and otherwise an entry's list. */
  lemma {:induction false} LookupGroupsFromSpec(groups: seq<seq<IntervalEntry>>, symbol: string, c: nat)
    requires c <= |groups|
    ensures LookupGroupsFrom(groups, symbol, c).None? <==>
      forall g, e :: c <= g < |groups| && 0 <= e < |groups[g]| ==> groups[g][e].0 != symbol
    ensures LookupGroupsFrom(groups, symbol, c).Some? ==>
      exists g, e :: c <= g < |groups| && 0 <= e < |groups[g]| &&
        groups[g][e] == (symbol, LookupGroupsFrom(groups, symbol, c).value)
    decreases |groups| - c
  {
    if c < |groups| {
      LookupFromSpec(groups[c], symbol, 0);
      LookupGroupsFromSpec(groups, symbol, c + 1);
    }
  }

  /**
   * `CHORD_INTERVALS[symbol]`; `None` is the source's `undefined`. The
   * record's symbols are distinct (LibraryFacts), so taking the first
   * occurrence agrees with the object literal, where a later duplicate
   * would win.
   */
  function IntervalsFor(symbol: string): Option<seq<nat>> {
    LookupGroupsFrom(IntervalGroups, symbol, 0)
  }

  /** The record has no entry for a symbol exactly when no block lists it; an entry found is the symbol's. */
  lemma IntervalsForSpec(symbol: string)
    ensures IntervalsFor(symbol).None? <==>
      forall g, e :: 0 <= g < |IntervalGroups| && 0 <= e < |IntervalGroups[g]| ==> IntervalGroups[g][e].0 != symbol
    ensures IntervalsFor(symbol).Some? ==>
      exists g, e :: 0 <= g < |IntervalGroups| && 0 <= e < |IntervalGroups[g]| &&
        IntervalGroups[g][e] == (symbol, IntervalsFor(symbol).value)
  {
    LookupGroupsFromSpec(IntervalGroups, symbol, 0);
  }
}
