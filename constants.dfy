/**
 * The static data of constants.ts: the twelve keys in circle-of-fifths order,
 * the diatonic chord names of every key, the Roman numerals of the scale
 * degrees and the chord library shown to the user.
 */
module Constants {

  /** One position on the circle of fifths. */
  datatype KeyData = KeyData(major: string, minor: string, dim: string, keySignature: string)

  /** `POSITIONAL_DATA`: position i is i fifths clockwise from C. */
  const PositionalData: seq<KeyData> := [
    KeyData("C", "Am", "B\U{00B0}", "0"),
    KeyData("G", "Em", "F#\U{00B0}", "1#"),
    KeyData("D", "Bm", "C#\U{00B0}", "2#"),
    KeyData("A", "F#m", "G#\U{00B0}", "3#"),
    KeyData("E", "C#m", "D#\U{00B0}", "4#"),
    KeyData("B", "G#m", "A#\U{00B0}", "5#"),
    KeyData("F#", "D#m", "E#\U{00B0}", "6#"),
    KeyData("Db", "Bbm", "C\U{00B0}", "5b"),
    KeyData("Ab", "Fm", "G\U{00B0}", "4b"),
    KeyData("Eb", "Cm", "D\U{00B0}", "3b"),
    KeyData("Bb", "Gm", "A\U{00B0}", "2b"),
    KeyData("F", "Dm", "E\U{00B0}", "1b")
  ]

  /** `DIATONIC_CHORDS_FOR_KEY`: the seven diatonic chords of each major key, degree I first. */
  const DiatonicChordsForKey: map<string, seq<string>> := map[
    "C" := ["C", "Dm", "Em", "F", "G", "Am", "B\U{00B0}"],
    "G" := ["G", "Am", "Bm", "C", "D", "Em", "F#\U{00B0}"],
    "D" := ["D", "Em", "F#m", "G", "A", "Bm", "C#\U{00B0}"],
    "A" := ["A", "Bm", "C#m", "D", "E", "F#m", "G#\U{00B0}"],
    "E" := ["E", "F#m", "G#m", "A", "B", "C#m", "D#\U{00B0}"],
    "B" := ["B", "C#m", "D#m", "E", "F#", "G#m", "A#\U{00B0}"],
    "F#" := ["F#", "G#m", "A#m", "B", "C#", "D#m", "E#\U{00B0}"],
    "Db" := ["Db", "Ebm", "Fm", "Gb", "Ab", "Bbm", "C\U{00B0}"],
    "Ab" := ["Ab", "Bbm", "Cm", "Db", "Eb", "Fm", "G\U{00B0}"],
    "Eb" := ["Eb", "Fm", "Gm", "Ab", "Bb", "Cm", "D\U{00B0}"],
    "Bb" := ["Bb", "Cm", "Dm", "Eb", "F", "Gm", "A\U{00B0}"],
    "F" := ["F", "Gm", "Am", "Bb", "C", "Dm", "E\U{00B0}"]
  ]

  /** `DIATONIC_NUMERALS`: the Roman numerals of the seven degrees. */
  const DiatonicNumerals: seq<string> := ["I", "ii", "iii", "IV", "V", "vi", "vii\U{00B0}"]

  /** A chord quality: its symbol (the suffix after the root), its name and its scale degrees. */
  datatype ChordDefinition = ChordDefinition(symbol: string, name: string, degrees: seq<string>)

  datatype ChordCategory = ChordCategory(name: string, chords: seq<ChordDefinition>)

  const TriadsAndPowerchords: ChordCategory := ChordCategory("Triads & Powerchords", [
    ChordDefinition("", "Major Triad", ["1", "3", "5"]),
    ChordDefinition("m", "Minor Triad", ["1", "\U{266D}3", "5"]),
    ChordDefinition("aug", "Augmented Triad", ["1", "3", "\U{266F}5"]),
    ChordDefinition("\U{00B0}", "Diminished Triad", ["1", "\U{266D}3", "\U{266D}5"]),
    ChordDefinition("b5", "Major Flat 5", ["1", "3", "\U{266D}5"]),
    ChordDefinition("m#5", "Minor Sharp 5", ["1", "\U{266D}3", "\U{266F}5"]),
    ChordDefinition("5", "Power Chord (5th)", ["1", "5"])
  ])

  const SuspendedChords: ChordCategory := ChordCategory("Suspended Chords", [
    ChordDefinition("sus2", "Suspended 2nd", ["1", "2", "5"]),
    ChordDefinition("sus4", "Suspended 4th", ["1", "4", "5"]),
    ChordDefinition("sus2b5", "Suspended 2nd Flat 5", ["1", "2", "\U{266D}5"]),
    ChordDefinition("sus24", "Suspended 2nd & 4th", ["1", "2", "4", "5"])
  ])

  const SixthAndAddedNoteChords: ChordCategory := ChordCategory("Sixth & Added Note Chords", [
    ChordDefinition("add9", "Add 9", ["1", "3", "5", "9"]),
    ChordDefinition("m(add9)", "Minor Add 9", ["1", "\U{266D}3", "5", "9"]),
    ChordDefinition("add#11", "Add Sharp 11", ["1", "3", "5", "\U{266F}11"]),
    ChordDefinition("6", "Major 6th", ["1", "3", "5", "6"]),
    ChordDefinition("m6", "Minor 6th", ["1", "\U{266D}3", "5", "6"]),
    ChordDefinition("6/9", "Six Add Nine", ["1", "3", "5", "6", "9"])
  ])

  const BasicSeventhChords: ChordCategory := ChordCategory("Basic Seventh Chords", [
    ChordDefinition("maj7", "Major 7th", ["1", "3", "5", "7"]),
    ChordDefinition("7", "Dominant 7th", ["1", "3", "5", "\U{266D}7"]),
    ChordDefinition("m7", "Minor 7th", ["1", "\U{266D}3", "5", "\U{266D}7"]),
    ChordDefinition("m7b5", "Half-Diminished 7th", ["1", "\U{266D}3", "\U{266D}5", "\U{266D}7"]),
    ChordDefinition("\U{00B0}7", "Diminished 7th", ["1", "\U{266D}3", "\U{266D}5", "\U{266D}\U{266D}7"]),
    ChordDefinition("m(maj7)", "Minor-Major 7th", ["1", "\U{266D}3", "5", "7"]),
    ChordDefinition("7(no3)", "7th (No 3rd)", ["1", "5", "\U{266D}7"])
  ])

  const AlteredMajorAndMinorSevenths: ChordCategory := ChordCategory("Altered Major & Minor Sevenths", [
    ChordDefinition("maj7b5", "Major 7th \U{266D}5", ["1", "3", "\U{266D}5", "7"]),
    ChordDefinition("maj7#5", "Augmented Major 7th", ["1", "3", "\U{266F}5", "7"]),
    ChordDefinition("m(maj7)b5", "Minor-Major 7th \U{266D}5", ["1", "\U{266D}3", "\U{266D}5", "7"]),
    ChordDefinition("maj7b9", "Major 7th \U{266D}9", ["1", "3", "5", "7", "\U{266D}9"]),
    ChordDefinition("maj7#9", "Major 7th \U{266F}9", ["1", "3", "5", "7", "\U{266F}9"]),
    ChordDefinition("m7b9", "Minor 7th \U{266D}9", ["1", "\U{266D}3", "5", "\U{266D}7", "\U{266D}9"]),
    ChordDefinition("m7#9", "Minor 7th \U{266F}9", ["1", "\U{266D}3", "5", "\U{266D}7", "\U{266F}9"]),
    ChordDefinition("m(maj7)b9", "Minor-Major 7th \U{266D}9", ["1", "\U{266D}3", "5", "7", "\U{266D}9"]),
    ChordDefinition("maj7#5(b9)", "Augmented Major 7th \U{266D}9", ["1", "3", "\U{266F}5", "7", "\U{266D}9"]),
    ChordDefinition("maj7#5(#9)", "Augmented Major 7th \U{266F}9", ["1", "3", "\U{266F}5", "7", "\U{266F}9"])
  ])

  const AlteredDominantSevenths: ChordCategory := ChordCategory("Altered Dominant Sevenths", [
    ChordDefinition("7b5", "Dominant 7th \U{266D}5", ["1", "3", "\U{266D}5", "\U{266D}7"]),
    ChordDefinition("7#5", "Dominant 7th \U{266F}5", ["1", "3", "\U{266F}5", "\U{266D}7"]),
    ChordDefinition("7b9", "Dominant 7th \U{266D}9", ["1", "3", "5", "\U{266D}7", "\U{266D}9"]),
    ChordDefinition("7#9", "Dominant 7th \U{266F}9", ["1", "3", "5", "\U{266D}7", "\U{266F}9"]),
    ChordDefinition("7b5b9", "Dominant 7th \U{266D}5 \U{266D}9", ["1", "3", "\U{266D}5", "\U{266D}7", "\U{266D}9"]),
    ChordDefinition("7#5b9", "Dominant 7th \U{266F}5 \U{266D}9", ["1", "3", "\U{266F}5", "\U{266D}7", "\U{266D}9"]),
    ChordDefinition("7#5#9", "Dominant 7th \U{266F}5 \U{266F}9", ["1", "3", "\U{266F}5", "\U{266D}7", "\U{266F}9"]),
    ChordDefinition("7add6", "Dominant 7th Add 6", ["1", "3", "5", "6", "\U{266D}7"])
  ])

  const SuspendedSeventhChords: ChordCategory := ChordCategory("Suspended Seventh Chords", [
    ChordDefinition("7sus2", "7th Suspended 2nd", ["1", "2", "5", "\U{266D}7"]),
    ChordDefinition("7sus4", "7th Suspended 4th", ["1", "4", "5", "\U{266D}7"]),
    ChordDefinition("maj7sus2", "Major 7th Sus 2", ["1", "2", "5", "7"]),
    ChordDefinition("maj7sus4", "Major 7th Sus 4", ["1", "4", "5", "7"]),
    ChordDefinition("7sus24", "7th Sus 2nd & 4th", ["1", "2", "4", "5", "\U{266D}7"]),
    ChordDefinition("maj7sus24", "Major 7th Sus 2 & 4", ["1", "2", "4", "5", "7"]),
    ChordDefinition("7sus2add6", "7th Sus 2 Add 6", ["1", "2", "5", "6", "\U{266D}7"]),
    ChordDefinition("7sus4add6", "7th Sus 4 Add 6", ["1", "4", "5", "6", "\U{266D}7"])
  ])

  const ExtendedNinthChords: ChordCategory := ChordCategory("Extended Ninth Chords", [
    ChordDefinition("maj9", "Major 9th", ["1", "3", "5", "7", "9"]),
    ChordDefinition("9", "Dominant 9th", ["1", "3", "5", "\U{266D}7", "9"]),
    ChordDefinition("m9", "Minor 9th", ["1", "\U{266D}3", "5", "\U{266D}7", "9"]),
    ChordDefinition("m(maj9)", "Minor-Major 9th", ["1", "\U{266D}3", "5", "7", "9"]),
    ChordDefinition("maj9#5", "Augmented Major 9th", ["1", "3", "\U{266F}5", "7", "9"]),
    ChordDefinition("9#5", "Dominant 9th \U{266F}5", ["1", "3", "\U{266F}5", "\U{266D}7", "9"]),
    ChordDefinition("9(b5)", "Dominant 9th \U{266D}5", ["1", "3", "\U{266D}5", "\U{266D}7", "9"]),
    ChordDefinition("m9b5", "Half-Diminished 9th", ["1", "\U{266D}3", "\U{266D}5", "\U{266D}7", "9"]),
    ChordDefinition("m7b5(b9)", "Half-Diminished \U{266D}9", ["1", "\U{266D}3", "\U{266D}5", "\U{266D}7", "\U{266D}9"]),
    ChordDefinition("\U{00B0}9", "Diminished 9th", ["1", "\U{266D}3", "\U{266D}5", "\U{266D}\U{266D}7", "9"]),
    ChordDefinition("\U{00B0}7(b9)", "Diminished \U{266D}9", ["1", "\U{266D}3", "\U{266D}5", "\U{266D}\U{266D}7", "\U{266D}9"])
  ])

  const ExtendedEleventhChords: ChordCategory := ChordCategory("Extended Eleventh Chords", [
    ChordDefinition("11", "Dominant 11th", ["1", "(3)", "5", "\U{266D}7", "9", "11"]),
    ChordDefinition("m11", "Minor 11th", ["1", "\U{266D}3", "5", "\U{266D}7", "9", "11"]),
    ChordDefinition("maj11", "Major 11th", ["1", "(3)", "5", "7", "9", "11"]),
    ChordDefinition("m(maj11)", "Minor-Major 11th", ["1", "\U{266D}3", "5", "7", "9", "11"]),
    ChordDefinition("maj9#11", "Major 9th \U{266F}11", ["1", "3", "5", "7", "9", "\U{266F}11"]),
    ChordDefinition("7#11", "Dominant 7th \U{266F}11", ["1", "3", "5", "\U{266D}7", "\U{266F}11"]),
    ChordDefinition("maj7#11", "Major 7th \U{266F}11", ["1", "3", "5", "7", "\U{266F}11"]),
    ChordDefinition("m7#11", "Minor 7th \U{266F}11", ["1", "\U{266D}3", "5", "\U{266D}7", "\U{266F}11"]),
    ChordDefinition("7#9#11", "Dominant 7th \U{266F}9 \U{266F}11", ["1", "3", "5", "\U{266D}7", "\U{266F}9", "\U{266F}11"]),
    ChordDefinition("m11(b9)", "Minor 11th \U{266D}9", ["1", "\U{266D}3", "5", "\U{266D}7", "\U{266D}9", "11"]),
    ChordDefinition("m11b5b9", "Minor 11th \U{266D}5 \U{266D}9", ["1", "\U{266D}3", "\U{266D}5", "\U{266D}7", "\U{266D}9", "11"])
  ])

  const ExtendedThirteenthChords: ChordCategory := ChordCategory("Extended Thirteenth Chords", [
    ChordDefinition("13", "Dominant 13th", ["1", "3", "5", "\U{266D}7", "9", "(11)", "13"]),
    ChordDefinition("m13", "Minor 13th", ["1", "\U{266D}3", "5", "\U{266D}7", "9", "11", "13"]),
    ChordDefinition("maj13", "Major 13th", ["1", "3", "5", "7", "9", "(11)", "13"]),
    ChordDefinition("m(maj13)", "Minor-Major 13th", ["1", "\U{266D}3", "5", "7", "9", "11", "13"]),
    ChordDefinition("13(b9)", "Dominant 13th \U{266D}9", ["1", "3", "5", "\U{266D}7", "\U{266D}9", "13"]),
    ChordDefinition("13(#11)", "Dominant 13th \U{266F}11", ["1", "3", "5", "\U{266D}7", "9", "\U{266F}11", "13"]),
    ChordDefinition("7b13", "Dominant 7th \U{266D}13", ["1", "3", "5", "\U{266D}7", "\U{266D}13"]),
    ChordDefinition("13(no9)", "Dominant 13th (no 9)", ["1", "3", "5", "\U{266D}7", "13"]),
    ChordDefinition("7sus4(b13)", "7th Sus 4 \U{266D}13", ["1", "4", "5", "\U{266D}7", "\U{266D}13"])
  ])

  /** `CHORD_LIBRARY`: the categories in display (and search) order. */
  const ChordLibrary: seq<ChordCategory> := [
    TriadsAndPowerchords, SuspendedChords, SixthAndAddedNoteChords, BasicSeventhChords,
    AlteredMajorAndMinorSevenths, AlteredDominantSevenths, SuspendedSeventhChords,
    ExtendedNinthChords, ExtendedEleventhChords, ExtendedThirteenthChords
  ]
}
