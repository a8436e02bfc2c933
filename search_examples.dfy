/**
 * Worked searches over the real library: "C E G" is the major triad on C in
 * C major; "C Eb Gb" is the diminished triad on C (the fourth entry tried),
 * first held by D-flat major; "C E G#" is the augmented triad on C, held by
 * no major key, and so placed at C's position on the circle.
 */
module SearchExamples {
  import opened Wrappers
  import opened PitchClasses
  import opened Constants
  import opened ChordIntervals
  import opened NoteSignatures
  import opened MusicTheory
  import opened LibraryFacts
  import opened KeyFacts
  import opened SearchFacts
  import opened NoteTokens
  import opened Search

  /** Three notes typed with a space between each are read back as those three tokens. */
  lemma ThreeTypedNotes(a: string, b: string, c: string)
    requires IsToken(a) && IsToken(b) && IsToken(c)
    ensures MatchNotes(a + " " + b + " " + c) == [a, b, c]
  {
    TokensRoundTrip([a, b, c]);
    assert [a, b, c][1..] == [b, c] && [b, c][1..] == [c];
    assert JoinWithSpaces([b, c]) == b + " " + c;
    assert JoinWithSpaces([a, b, c]) == a + " " + (b + " " + c);
    assert a + " " + (b + " " + c) == a + " " + b + " " + c;
  }

  lemma TokensOfCEG()
    ensures MatchNotes("C E G") == ["C", "E", "G"]
  {
    ThreeTypedNotes("C", "E", "G");
    assert "C" + " " + "E" + " " + "G" == "C E G";
  }

  lemma TokensOfCEbGb()
    ensures MatchNotes("C Eb Gb") == ["C", "Eb", "Gb"]
  {
    ThreeTypedNotes("C", "Eb", "Gb");
    assert "C" + " " + "Eb" + " " + "Gb" == "C Eb Gb";
  }

  lemma TokensOfCEGSharp()
    ensures MatchNotes("C E G#") == ["C", "E", "G#"]
  {
    ThreeTypedNotes("C", "E", "G#");
    assert "C" + " " + "E" + " " + "G#" == "C E G#";
  }

  /** Notes whose pitch classes are already valid, ascending and distinct have those as signature. */
  lemma SignatureOfAscending(notes: seq<string>, pcs: seq<int>)
    requires PitchClassesOf(notes) == pcs && StrictlyIncreasing(pcs)
    requires forall i :: 0 <= i < |pcs| ==> pcs[i] != -1
    ensures GetNoteSignature(notes) == pcs
  {
    SignatureSpec(notes);
    ValidPitchClassesOf(notes);
    StrictlyIncreasingUnique(GetNoteSignature(notes), pcs);
  }

  lemma PitchClassesOfCEG()
    ensures PitchClassesOf(["C", "E", "G"]) == [0, 4, 7]
  {
  }

  lemma SignatureOfCEG()
    ensures GetNoteSignature(["C", "E", "G"]) == [0, 4, 7]
  {
    PitchClassesOfCEG();
    SignatureOfAscending(["C", "E", "G"], [0, 4, 7]);
  }

  /** The first entry of the library is the major triad, with symbol "". */
  lemma FirstLibraryEntry()
    ensures ValidPosition(ChordLibrary, Position(0, 0, 0))
    ensures DefinitionAt(ChordLibrary, Position(0, 0, 0)) == ChordDefinition("", "Major Triad", ["1", "3", "5"])
  {
  }

  lemma MajorTriadIntervals()
    ensures IntervalsFor("") == Some([0, 4, 7])
  {
  }

  lemma SpellMajorTriadOnC()
    ensures SpellIntervals(0, [0, 4, 7], AllNotes) == ["C", "E", "G"]
  {
  }

  lemma RootC()
    ensures PitchClass("C") == 0 && NoteNamesFor("C") == AllNotes
  {
  }

  lemma NotesOfMajorTriadOnC()
    ensures NotesForIntervals("C", Some([0, 4, 7])) == ["C", "E", "G"]
  {
    RootC();
    SpellMajorTriadOnC();
  }

  /** The first entry of the library on the first root spells C E G. */
  lemma MajorTriadOnC()
    ensures GetNotesForChordDefinition("C", "") == ["C", "E", "G"]
  {
    MajorTriadIntervals();
    NotesOfMajorTriadOnC();
  }

  lemma CMajorHoldsCEG()
    ensures ChordInKey(["C", "E", "G"], 0)
  {
    assert PositionalData[0].major == "C";
    assert PitchClassesOf(["C", "E", "G"]) == [0, 4, 7];
    DiatonicMembership("C");
  }

  /** The major triad on C is the first chord whose signature is {0, 4, 7}. */
  lemma FirstChordOfCEG()
    ensures FirstChord(ChordLibrary, [0, 4, 7]) ==
      Some(FoundChord("C", ChordDefinition("", "Major Triad", ["1", "3", "5"]), ["C", "E", "G"]))
  {
    FirstLibraryEntry();
    MajorTriadOnC();
    SignatureOfCEG();
    assert AllNotes[0] == "C";
    assert NotesAt(ChordLibrary, Position(0, 0, 0)) == ["C", "E", "G"];
    SearchStep(ChordLibrary, [0, 4, 7], Position(0, 0, 0));
  }

  /** C E G lies in C major, the first key of the circle. */
  lemma PlaceCEG()
    ensures PlaceOnCircle(FoundChord("C", ChordDefinition("", "Major Triad", ["1", "3", "5"]), ["C", "E", "G"])) ==
      Some(SearchHit("C", ChordDefinition("", "Major Triad", ["1", "3", "5"]), Some("C"), 0))
  {
    CMajorHoldsCEG();
    assert PositionalData[0].major == "C";
  }

  /** "C E G" → the major triad on C, in the key of C, circle position 0. */
  lemma SearchCEG()
    ensures FindChordAndKey("C E G") ==
      Some(SearchHit("C", ChordDefinition("", "Major Triad", ["1", "3", "5"]), Some("C"), 0))
  {
    TokensOfCEG();
    SignatureOfCEG();
    FirstChordOfCEG();
    PlaceCEG();
  }

  /** On root C every interval below an octave is its own pitch class, so the signature is the interval list. */
  lemma SignatureOnC(intervals: seq<nat>)
    requires forall i, j :: 0 <= i < j < |intervals| ==> intervals[i] < intervals[j]
    requires forall i :: 0 <= i < |intervals| ==> intervals[i] < 12
    ensures PitchClassesOf(NotesForIntervals("C", Some(intervals))) == intervals
    ensures GetNoteSignature(NotesForIntervals("C", Some(intervals))) == intervals
  {
    RootC();
    var notes := NotesForIntervals("C", Some(intervals));
    assert PitchClassesOf(notes) == intervals;
    SignatureOfAscending(notes, intervals);
  }

  /** The chord of library entry (c, e) on root C, for intervals within an octave. */
  lemma ChordOnC(c: nat, e: nat)
    requires ValidEntry(c, e) && c < |IntervalGroups| && e < |IntervalGroups[c]|
    requires forall i :: 0 <= i < |IntervalGroups[c][e].1| ==> IntervalGroups[c][e].1[i] < 12
    ensures ValidPosition(ChordLibrary, Position(0, c, e))
    ensures PitchClassesOf(NotesAt(ChordLibrary, Position(0, c, e))) == IntervalGroups[c][e].1
    ensures GetNoteSignature(NotesAt(ChordLibrary, Position(0, c, e))) == IntervalGroups[c][e].1
  {
    IntervalsOfLibraryChord(c, e);
    assert AllNotes[0] == "C";
    SignatureOnC(IntervalGroups[c][e].1);
  }

  lemma AugmentedTriadOnC()
    ensures ValidPosition(ChordLibrary, Position(0, 0, 2))
    ensures DefinitionAt(ChordLibrary, Position(0, 0, 2)) == ChordDefinition("aug", "Augmented Triad", ["1", "3", "\U{266F}5"])
    ensures PitchClassesOf(NotesAt(ChordLibrary, Position(0, 0, 2))) == [0, 4, 8]
    ensures GetNoteSignature(NotesAt(ChordLibrary, Position(0, 0, 2))) == [0, 4, 8]
  {
    assert IntervalGroups[0][2].1 == [0, 4, 8];
    ChordOnC(0, 2);
  }

  lemma DiminishedTriadOnC()
    ensures ValidPosition(ChordLibrary, Position(0, 0, 3))
    ensures DefinitionAt(ChordLibrary, Position(0, 0, 3)) == ChordDefinition("\U{00B0}", "Diminished Triad", ["1", "\U{266D}3", "\U{266D}5"])
    ensures PitchClassesOf(NotesAt(ChordLibrary, Position(0, 0, 3))) == [0, 3, 6]
    ensures GetNoteSignature(NotesAt(ChordLibrary, Position(0, 0, 3))) == [0, 3, 6]
  {
    assert IntervalGroups[0][3].1 == [0, 3, 6];
    ChordOnC(0, 3);
  }

  /** The scan moves past position `i` when the `k`-th pitch class is not a scale step above its root. */
  lemma FitSkip(pcs: seq<int>, i: nat, k: int)
    requires i < 12 && 0 <= k < |pcs|
    requires !IsScaleStep(StepAbove(pcs[k], CircleRoots[i]))
    ensures FirstFit(pcs, i) == FirstFit(pcs, i + 1)
  {
  }

  lemma DiminishedFitFrom4(pcs: seq<int>)
    requires pcs == [0, 3, 6]
    ensures FirstFit(pcs, 4) == Some(7)
  {
    FitSkip(pcs, 4, 0);
    FitSkip(pcs, 5, 0);
    FitSkip(pcs, 6, 0);
    assert InMajorScale(pcs, CircleRoots[7]);
  }

  /** {0, 3, 6} first fits the major scale at position 7 (D-flat): each earlier key misses one of its notes. */
  lemma DiminishedFit(pcs: seq<int>)
    requires pcs == [0, 3, 6]
    ensures FirstFit(pcs, 0) == Some(7)
  {
    FitSkip(pcs, 0, 1);
    FitSkip(pcs, 1, 1);
    FitSkip(pcs, 2, 0);
    FitSkip(pcs, 3, 0);
    DiminishedFitFrom4(pcs);
  }

  lemma AugmentedFitFrom8(pcs: seq<int>)
    requires pcs == [0, 4, 8]
    ensures FirstFit(pcs, 8) == None
  {
    FitSkip(pcs, 8, 1);
    FitSkip(pcs, 9, 1);
    FitSkip(pcs, 10, 1);
    FitSkip(pcs, 11, 2);
  }

  lemma AugmentedFitFrom4(pcs: seq<int>)
    requires pcs == [0, 4, 8]
    ensures FirstFit(pcs, 4) == None
  {
    FitSkip(pcs, 4, 0);
    FitSkip(pcs, 5, 0);
    FitSkip(pcs, 6, 0);
    FitSkip(pcs, 7, 1);
    AugmentedFitFrom8(pcs);
  }

  /** {0, 4, 8} fits no major scale. */
  lemma AugmentedFit(pcs: seq<int>)
    requires pcs == [0, 4, 8]
    ensures FirstFit(pcs, 0) == None
  {
    FitSkip(pcs, 0, 2);
    FitSkip(pcs, 1, 2);
    FitSkip(pcs, 2, 0);
    FitSkip(pcs, 3, 0);
    AugmentedFitFrom4(pcs);
  }

  lemma SignatureOfCEbGb()
    ensures GetNoteSignature(["C", "Eb", "Gb"]) == [0, 3, 6]
  {
    assert PitchClassesOf(["C", "Eb", "Gb"]) == [0, 3, 6];
    SignatureOfAscending(["C", "Eb", "Gb"], [0, 3, 6]);
  }

  lemma SignatureOfCEGSharp()
    ensures GetNoteSignature(["C", "E", "G#"]) == [0, 4, 8]
  {
    assert PitchClassesOf(["C", "E", "G#"]) == [0, 4, 8];
    SignatureOfAscending(["C", "E", "G#"], [0, 4, 8]);
  }

  /**
   * A library whose first category opens with four chords that, on root C,
   * have the signatures of the major, minor, augmented and diminished triads.
   */
  predicate OpensWithTriads(library: seq<ChordCategory>) {
    |library| > 0 && |library[0].chords| >= 4 &&
    GetNoteSignature(NotesAt(library, Position(0, 0, 0))) == [0, 4, 7] &&
    GetNoteSignature(NotesAt(library, Position(0, 0, 1))) == [0, 3, 7] &&
    GetNoteSignature(NotesAt(library, Position(0, 0, 2))) == [0, 4, 8] &&
    GetNoteSignature(NotesAt(library, Position(0, 0, 3))) == [0, 3, 6]
  }

  lemma MajorTriadSignatureOnC()
    ensures ValidPosition(ChordLibrary, Position(0, 0, 0))
    ensures GetNoteSignature(NotesAt(ChordLibrary, Position(0, 0, 0))) == [0, 4, 7]
  {
    assert IntervalGroups[0][0].1 == [0, 4, 7];
    ChordOnC(0, 0);
  }

  lemma MinorTriadOnC()
    ensures ValidPosition(ChordLibrary, Position(0, 0, 1))
    ensures GetNoteSignature(NotesAt(ChordLibrary, Position(0, 0, 1))) == [0, 3, 7]
  {
    assert IntervalGroups[0][1].1 == [0, 3, 7];
    ChordOnC(0, 1);
  }

  lemma LibraryOpensWithTriads()
    ensures OpensWithTriads(ChordLibrary)
  {
    MajorTriadSignatureOnC();
    MinorTriadOnC();
    AugmentedTriadOnC();
    DiminishedTriadOnC();
  }

  /** Signature {0, 3, 6}: the first three triads on C are skipped and the diminished triad matches. */
  lemma DiminishedFirstIn(library: seq<ChordCategory>)
    requires OpensWithTriads(library)
    ensures FirstMatchFrom(library, [0, 3, 6], Position(0, 0, 0)) == Some(Position(0, 0, 3))
  {
    assert [0, 4, 7][1] != [0, 3, 6][1] && [0, 3, 7][2] != [0, 3, 6][2] && [0, 4, 8][1] != [0, 3, 6][1];
    SkipEntry(library, [0, 3, 6], Position(0, 0, 0));
    SkipEntry(library, [0, 3, 6], Position(0, 0, 1));
    SkipEntry(library, [0, 3, 6], Position(0, 0, 2));
    StopAtEntry(library, [0, 3, 6], Position(0, 0, 3));
  }

  /** Signature {0, 4, 8}: the major and minor triads on C are skipped and the augmented triad matches. */
  lemma AugmentedFirstIn(library: seq<ChordCategory>)
    requires OpensWithTriads(library)
    ensures FirstMatchFrom(library, [0, 4, 8], Position(0, 0, 0)) == Some(Position(0, 0, 2))
  {
    assert [0, 4, 7][2] != [0, 4, 8][2] && [0, 3, 7][1] != [0, 4, 8][1];
    SkipEntry(library, [0, 4, 8], Position(0, 0, 0));
    SkipEntry(library, [0, 4, 8], Position(0, 0, 1));
    StopAtEntry(library, [0, 4, 8], Position(0, 0, 2));
  }

  lemma FirstMatchOfDiminished()
    ensures FirstMatchFrom(ChordLibrary, [0, 3, 6], Position(0, 0, 0)) == Some(Position(0, 0, 3))
  {
    LibraryOpensWithTriads();
    DiminishedFirstIn(ChordLibrary);
  }

  lemma FirstMatchOfAugmented()
    ensures FirstMatchFrom(ChordLibrary, [0, 4, 8], Position(0, 0, 0)) == Some(Position(0, 0, 2))
  {
    LibraryOpensWithTriads();
    AugmentedFirstIn(ChordLibrary);
  }

  /** The diminished triad on C is the first chord whose signature is {0, 3, 6}. */
  lemma FirstChordOfCEbGb()
    ensures FirstChord(ChordLibrary, [0, 3, 6]) == Some(FoundAt(ChordLibrary, Position(0, 0, 3)))
  {
    FirstMatchOfDiminished();
    DiminishedTriadOnC();
  }

  /** Its notes first lie in D-flat major, circle position 7. */
  lemma PlaceDiminishedOnC()
    ensures ValidPosition(ChordLibrary, Position(0, 0, 3))
    ensures PlaceOnCircle(FoundAt(ChordLibrary, Position(0, 0, 3))) ==
      Some(SearchHit("C", ChordDefinition("\U{00B0}", "Diminished Triad", ["1", "\U{266D}3", "\U{266D}5"]), Some("Db"), 7))
  {
    DiminishedTriadOnC();
    DiminishedKey(NotesAt(ChordLibrary, Position(0, 0, 3)));
    KeyOfPositionSeven();
    assert AllNotes[0] == "C";
  }

  lemma KeyOfPositionSeven()
    ensures |PositionalData| == 12 && PositionalData[7].major == "Db"
  {
  }

  /** Notes with pitch classes {0, 3, 6} first lie in the key at position 7, D-flat. */
  lemma DiminishedKey(notes: seq<string>)
    requires PitchClassesOf(notes) == [0, 3, 6]
    ensures FirstKeyFrom(notes, 0) == Some(7)
  {
    DiminishedFit(PitchClassesOf(notes));
    FirstKeyIsFirstFit(notes, 0);
  }

  /** "C Eb Gb" → the diminished triad on C, in the key of D-flat, circle position 7. */
  lemma SearchCEbGb()
    ensures FindChordAndKey("C Eb Gb") ==
      Some(SearchHit("C", ChordDefinition("\U{00B0}", "Diminished Triad", ["1", "\U{266D}3", "\U{266D}5"]), Some("Db"), 7))
  {
    TokensOfCEbGb();
    SignatureOfCEbGb();
    FirstChordOfCEbGb();
    PlaceDiminishedOnC();
  }

  /** The augmented triad on C is the first chord whose signature is {0, 4, 8}. */
  lemma FirstChordOfCEGSharp()
    ensures FirstChord(ChordLibrary, [0, 4, 8]) == Some(FoundAt(ChordLibrary, Position(0, 0, 2)))
  {
    FirstMatchOfAugmented();
    AugmentedTriadOnC();
  }

  /** Its notes lie in no major key, so it is placed at C's own position 0. */
  lemma PlaceAugmentedOnC()
    ensures ValidPosition(ChordLibrary, Position(0, 0, 2))
    ensures PlaceOnCircle(FoundAt(ChordLibrary, Position(0, 0, 2))) ==
      Some(SearchHit("C", ChordDefinition("aug", "Augmented Triad", ["1", "3", "\U{266F}5"]), None, 0))
  {
    AugmentedTriadOnC();
    var notes := NotesAt(ChordLibrary, Position(0, 0, 2));
    AugmentedFit(PitchClassesOf(notes));
    FirstKeyIsFirstFit(notes, 0);
    assert AllNotes[0] == "C";
    RootC();
    FindMajorIndexOfPitchClass(0);
  }

  /** "C E G#" → the augmented triad on C, in no key, placed at C's circle position 0. */
  lemma SearchCEGSharp()
    ensures FindChordAndKey("C E G#") ==
      Some(SearchHit("C", ChordDefinition("aug", "Augmented Triad", ["1", "3", "\U{266F}5"]), None, 0))
  {
    TokensOfCEGSharp();
    SignatureOfCEGSharp();
    FirstChordOfCEGSharp();
    PlaceAugmentedOnC();
  }
}
