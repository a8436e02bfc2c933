/**
 * The pure helpers of utils/musicTheory.ts: root extraction, the fixed
 * seventh-chord shapes of the diatonic chords, the note generator for
 * library chords and the major-scale pitch-class set of a key.
 */
module MusicTheory {
  import opened Wrappers
  import opened PitchClasses
  import opened ChordIntervals
  import opened NoteSignatures

  /** ° (U+00B0), the suffix of diminished chord names. */
  const DegreeSign: char := '\U{00B0}'

  /** Every spelled name has the pitch class of its position, in both tables. */
  lemma SharpSpellings()
    ensures |AllNotes| == 12
    ensures forall k :: 0 <= k < 12 ==> PitchClass(AllNotes[k]) == k
  {
  }

  lemma FlatSpellings()
    ensures |AllNotesFlat| == 12
    ensures forall k :: 0 <= k < 12 ==> PitchClass(AllNotesFlat[k]) == k
  {
  }

  /**
   * `getRootNote`: the first character, extended by the second when that is
   * an ASCII `#` or `b` (`♯` and `♭` are not recognised here).
   */
  function GetRootNote(chordName: string): (r: string)
    ensures r <= chordName
    ensures |r| == (if chordName == [] then 0
                    else if |chordName| > 1 && (chordName[1] == '#' || chordName[1] == 'b') then 2
                    else 1)
  {
    if |chordName| > 1 && (chordName[1] == '#' || chordName[1] == 'b') then chordName[..2]
    else chordName[..if chordName == [] then 0 else 1]
  }

  /** The `ChordType` of types.ts. */
  datatype ChordType = Major | Minor | Dim

  /** The suffix test of `getChordNotes`: `°` first, then `m`, otherwise major. */
  function ChordTypeOf(chordName: string): ChordType {
    if |chordName| > 0 && chordName[|chordName| - 1] == DegreeSign then Dim
    else if |chordName| > 0 && chordName[|chordName| - 1] == 'm' then Minor
    else Major
  }

  /** The four-note shapes of `getChordNotes`: major seventh, minor seventh, diminished seventh. */
  function Shape(t: ChordType): seq<nat> {
    match t
    case Major => [0, 4, 7, 11]
    case Minor => [0, 3, 7, 10]
    case Dim => [0, 3, 6, 9]
  }

  /**
   * `getChordNotes`: nothing for an invalid root; otherwise four sharp-spelled
   * notes whose pitch classes are the root plus the shape of the chord type.
   */
  function GetChordNotes(chordName: string): (r: seq<string>)
    ensures PitchClass(GetRootNote(chordName)) == -1 ==> r == []
    ensures PitchClass(GetRootNote(chordName)) != -1 ==>
      |r| == 4 &&
      forall i :: 0 <= i < 4 ==>
        r[i] in AllNotes &&
        PitchClass(r[i]) == (PitchClass(GetRootNote(chordName)) + Shape(ChordTypeOf(chordName))[i]) % 12
  {
    var rootIndex := PitchClass(GetRootNote(chordName));
    if rootIndex == -1 then []
    else
      var intervals := Shape(ChordTypeOf(chordName));
      SharpSpellings();
      seq(|intervals|, i requires 0 <= i < |intervals| => AllNotes[(rootIndex + intervals[i]) % 12])
  }

  /** The spelling table of `getNotesForChordDefinition`: flats exactly when the root has an ASCII `b`. */
  function NoteNamesFor(rootNote: string): seq<string> {
    if 'b' in rootNote then AllNotesFlat else AllNotes
  }

  /** The map step of `getNotesForChordDefinition`: every interval above the root, spelled. */
  function SpellIntervals(rootIndex: int, intervals: seq<nat>, noteNames: seq<string>): seq<string>
    requires 0 <= rootIndex < 12 && |noteNames| == 12
  {
    seq(|intervals|, i requires 0 <= i < |intervals| => noteNames[(rootIndex + intervals[i]) % 12])
  }

  /** Spelling from either table keeps the pitch class of every note: root plus interval. */
  lemma SpelledPitchClasses(rootIndex: int, intervals: seq<nat>, noteNames: seq<string>)
    requires 0 <= rootIndex < 12
    requires noteNames == AllNotes || noteNames == AllNotesFlat
    ensures |SpellIntervals(rootIndex, intervals, noteNames)| == |intervals|
    ensures forall i :: 0 <= i < |intervals| ==>
      SpellIntervals(rootIndex, intervals, noteNames)[i] in noteNames &&
      PitchClass(SpellIntervals(rootIndex, intervals, noteNames)[i]) == (rootIndex + intervals[i]) % 12
  {
    SharpSpellings();
    FlatSpellings();
  }

  /**
   * The body of `getNotesForChordDefinition` once the interval record has
   * been consulted: nothing for an invalid root or a missing entry;
   * otherwise one note per interval, each the root's pitch class plus that
   * interval, spelled from the table the root selects.
   */
  function NotesForIntervals(rootNote: string, intervals: Option<seq<nat>>): (r: seq<string>)
    ensures PitchClass(rootNote) == -1 || intervals.None? ==> r == []
    ensures PitchClass(rootNote) != -1 && intervals.Some? ==>
      |r| == |intervals.value| &&
      forall i :: 0 <= i < |r| ==> PitchClass(r[i]) == (PitchClass(rootNote) + intervals.value[i]) % 12
    ensures 'b' in rootNote ==> forall i :: 0 <= i < |r| ==> r[i] in AllNotesFlat
    ensures 'b' !in rootNote ==> forall i :: 0 <= i < |r| ==> r[i] in AllNotes
  {
    var rootIndex := PitchClass(rootNote);
    if rootIndex == -1 then []
    else match intervals
      case None => []
      case Some(intervals) =>
        var noteNames := NoteNamesFor(rootNote);
        SpelledPitchClasses(rootIndex, intervals, noteNames);
        SpellIntervals(rootIndex, intervals, noteNames)
  }

  /** `getNotesForChordDefinition`: the root's notes for the symbol's entry in the record. */
  function GetNotesForChordDefinition(rootNote: string, quality: string): seq<string> {
    NotesForIntervals(rootNote, IntervalsFor(quality))
  }

  /**
   * The spelling table only changes names: two roots with the same pitch
   * class give the same pitch classes, and so the same signature.
   */
  lemma SpellingKeepsPitchClasses(rootA: string, rootB: string, quality: string)
    requires PitchClass(rootA) == PitchClass(rootB)
    ensures PitchClassesOf(GetNotesForChordDefinition(rootA, quality))
         == PitchClassesOf(GetNotesForChordDefinition(rootB, quality))
    ensures GetNoteSignature(GetNotesForChordDefinition(rootA, quality))
         == GetNoteSignature(GetNotesForChordDefinition(rootB, quality))
  {
    var rootIndex := PitchClass(rootA);
    var intervals := IntervalsFor(quality);
    if rootIndex != -1 && intervals.Some? {
      SameSpelledPitchClasses(rootIndex, intervals.value, NoteNamesFor(rootA), NoteNamesFor(rootB));
    }
  }

  lemma SameSpelledPitchClasses(rootIndex: int, intervals: seq<nat>, namesA: seq<string>, namesB: seq<string>)
    requires 0 <= rootIndex < 12
    requires namesA == AllNotes || namesA == AllNotesFlat
    requires namesB == AllNotes || namesB == AllNotesFlat
    ensures PitchClassesOf(SpellIntervals(rootIndex, intervals, namesA))
         == PitchClassesOf(SpellIntervals(rootIndex, intervals, namesB))
  {
    SpelledPitchClasses(rootIndex, intervals, namesA);
    SpelledPitchClasses(rootIndex, intervals, namesB);
    var pa := PitchClassesOf(SpellIntervals(rootIndex, intervals, namesA));
    var pb := PitchClassesOf(SpellIntervals(rootIndex, intervals, namesB));
    assert |pa| == |pb|;
    forall i | 0 <= i < |pa|
      ensures pa[i] == pb[i]
    {
    }
  }

  /** `[0, 2, 4, 5, 7, 9, 11]`: the major scale in semitones above the root. */
  const MajorScaleIntervals: seq<nat> := [0, 2, 4, 5, 7, 9, 11]

  /** `majorScaleIntervals.map(i => (rootPitchClass + i) % 12)` */
  function ScaleList(root: int): seq<int> {
    seq(|MajorScaleIntervals|, i requires 0 <= i < |MajorScaleIntervals| => (root + MajorScaleIntervals[i]) % 12)
  }

  /** `getDiatonicPitchClasses`: the major scale on the key's root, as a set. */
  function GetDiatonicPitchClasses(key: string): set<int> {
    var root := PitchClass(key);
    if root == -1 then {} else set x | x in ScaleList(root)
  }

  /** Adding `k` semitones to `r` lands on `x` exactly when `x` is `k` above `r`. */
  lemma ModShift(r: int, x: int, k: int)
    requires 0 <= r < 12 && 0 <= x < 12 && 0 <= k < 12
    ensures x == (r + k) % 12 <==> (x - r) % 12 == k
  {
    if r + k < 12 {
      assert (r + k) % 12 == r + k;
    } else {
      assert (r + k) % 12 == r + k - 12;
    }
    if x >= r {
      assert (x - r) % 12 == x - r;
    } else {
      assert (x - r) % 12 == x - r + 12;
    }
  }

  /**
   * The diatonic set is empty for an invalid key; otherwise a pitch class
   * belongs to it exactly when its distance above the root is a scale step.
   */
  lemma DiatonicMembership(key: string)
    ensures PitchClass(key) == -1 ==> GetDiatonicPitchClasses(key) == {}
    ensures PitchClass(key) != -1 ==>
      forall x :: x in GetDiatonicPitchClasses(key) <==>
        0 <= x < 12 && (x - PitchClass(key)) % 12 in MajorScaleIntervals
  {
    var root := PitchClass(key);
    if root != -1 {
      var d := GetDiatonicPitchClasses(key);
      forall x
        ensures x in d <==> 0 <= x < 12 && (x - root) % 12 in MajorScaleIntervals
      {
        if x in d {
          var i :| 0 <= i < |MajorScaleIntervals| && x == ScaleList(root)[i];
          ModShift(root, x, MajorScaleIntervals[i]);
        }
        if 0 <= x < 12 && (x - root) % 12 in MajorScaleIntervals {
          var i :| 0 <= i < |MajorScaleIntervals| && MajorScaleIntervals[i] == (x - root) % 12;
          ModShift(root, x, MajorScaleIntervals[i]);
          assert x == ScaleList(root)[i];
        }
      }
    }
  }

  /** A valid key's diatonic set has seven members. */
  lemma DiatonicSize(key: string)
    requires PitchClass(key) != -1
    ensures |GetDiatonicPitchClasses(key)| == 7
  {
    var root := PitchClass(key);
    var list := ScaleList(root);
    forall i, j | 0 <= i < j < |list|
      ensures list[i] != list[j]
    {
      ModShift(root, list[i], MajorScaleIntervals[i]);
      ModShift(root, list[i], MajorScaleIntervals[j]);
    }
    DistinctElements(list);
  }

  /** A list without repetitions has as many distinct elements as entries. */
  lemma {:induction false} DistinctElements(s: seq<int>)
    requires NoDuplicates(s)
    ensures |set x | x in s| == |s|
  {
    if s != [] {
      var init := s[..|s| - 1];
      assert NoDuplicates(init);
      DistinctElements(init);
      assert s == init + [s[|s| - 1]];
      assert (set x | x in s) == (set x | x in init) + {s[|s| - 1]};
      assert s[|s| - 1] !in init;
    }
  }
}
