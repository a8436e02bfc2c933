/**
 * Facts about the key tables of constants.ts: the circle of fifths in
 * `POSITIONAL_DATA` and the diatonic chord lists of `DIATONIC_CHORDS_FOR_KEY`,
 * stated in terms of the pitch classes `noteToPitchClass` gives their names.
 */
module KeyFacts {
  import opened PitchClasses
  import opened Constants
  import opened MusicTheory

  /** The pitch class of a chord name's root, as `getRootNote` extracts it. */
  function RootPitchClass(name: string): int {
    PitchClass(GetRootNote(name))
  }

  /**
   * Position `i` of the circle: its major key lies `i` fifths above C, its
   * relative minor a major sixth above that and its diminished chord a
   * major seventh above it, each with the matching suffix.
   */
  predicate CircleEntry(d: KeyData, i: int) {
    PitchClass(d.major) == (7 * i) % 12 &&
    RootPitchClass(d.minor) == (PitchClass(d.major) + 9) % 12 && ChordTypeOf(d.minor) == Minor &&
    RootPitchClass(d.dim) == (PitchClass(d.major) + 11) % 12 && ChordTypeOf(d.dim) == Dim
  }

  lemma EntryC()
    ensures CircleEntry(PositionalData[0], 0)
  {
  }

  lemma EntryG()
    ensures CircleEntry(PositionalData[1], 1)
  {
  }

  lemma EntryD()
    ensures CircleEntry(PositionalData[2], 2)
  {
  }

  lemma EntryA()
    ensures CircleEntry(PositionalData[3], 3)
  {
  }

  lemma EntryE()
    ensures CircleEntry(PositionalData[4], 4)
  {
  }

  lemma EntryB()
    ensures CircleEntry(PositionalData[5], 5)
  {
  }

  lemma EntryFSharp()
    ensures CircleEntry(PositionalData[6], 6)
  {
  }

  lemma EntryDFlat()
    ensures CircleEntry(PositionalData[7], 7)
  {
  }

  lemma EntryAFlat()
    ensures CircleEntry(PositionalData[8], 8)
  {
  }

  lemma EntryEFlat()
    ensures CircleEntry(PositionalData[9], 9)
  {
  }

  lemma EntryBFlat()
    ensures CircleEntry(PositionalData[10], 10)
  {
  }

  lemma EntryF()
    ensures CircleEntry(PositionalData[11], 11)
  {
  }

  /** `POSITIONAL_DATA` walks the circle of fifths clockwise from C. */
  lemma CircleOfFifths()
    ensures |PositionalData| == 12
    ensures forall i :: 0 <= i < 12 ==> CircleEntry(PositionalData[i], i)
  {
    forall i | 0 <= i < 12
      ensures CircleEntry(PositionalData[i], i)
    {
      if i == 0 {
        EntryC();
      } else if i == 1 {
        EntryG();
      } else if i == 2 {
        EntryD();
      } else if i == 3 {
        EntryA();
      } else if i == 4 {
        EntryE();
      } else if i == 5 {
        EntryB();
      } else if i == 6 {
        EntryFSharp();
      } else if i == 7 {
        EntryDFlat();
      } else if i == 8 {
        EntryAFlat();
      } else if i == 9 {
        EntryEFlat();
      } else if i == 10 {
        EntryBFlat();
      } else {
        EntryF();
      }
    }
  }

  /** The pitch classes of the twelve major roots in circle order, `i` fifths above C. */
  const CircleRoots: seq<int> := [0, 7, 2, 9, 4, 11, 6, 1, 8, 3, 10, 5]

  lemma CircleRootsAreFifths(i: int)
    requires 0 <= i < 12
    ensures CircleRoots[i] == (7 * i) % 12
  {
    assert i == 0 || i == 1 || i == 2 || i == 3 || i == 4 || i == 5 ||
           i == 6 || i == 7 || i == 8 || i == 9 || i == 10 || i == 11;
  }

  /** The major root of circle position `i` is `i` fifths above C. */
  lemma MajorRootOnCircle(i: int)
    requires 0 <= i < 12
    ensures |PositionalData| == 12 && PitchClass(PositionalData[i].major) == CircleRoots[i]
  {
    CircleOfFifths();
    assert CircleEntry(PositionalData[i], i);
    CircleRootsAreFifths(i);
  }

  /** Seven fifths are a semitone: multiplying by 7 modulo 12 undoes itself. */
  lemma SevenSelfInverse(x: int)
    requires 0 <= x < 12
    ensures (7 * ((7 * x) % 12)) % 12 == x
  {
    assert x == 0 || x == 1 || x == 2 || x == 3 || x == 4 || x == 5 ||
           x == 6 || x == 7 || x == 8 || x == 9 || x == 10 || x == 11;
  }

  /**
   * The twelve major roots cover every pitch class exactly once: pitch
   * class `p` is the major root of position `7 * p mod 12` and of no other.
   */
  lemma MajorRootsCoverPitchClasses()
    ensures forall p :: 0 <= p < 12 ==> PitchClass(PositionalData[(7 * p) % 12].major) == p
    ensures forall i, j :: 0 <= i < 12 && 0 <= j < 12 ==>
      PitchClass(PositionalData[i].major) == PitchClass(PositionalData[j].major) ==> i == j
  {
    CircleOfFifths();
    forall p | 0 <= p < 12
      ensures PitchClass(PositionalData[(7 * p) % 12].major) == p
    {
      SevenSelfInverse(p);
    }
    forall i, j | 0 <= i < 12 && 0 <= j < 12 &&
      PitchClass(PositionalData[i].major) == PitchClass(PositionalData[j].major)
      ensures i == j
    {
      SevenSelfInverse(i);
      SevenSelfInverse(j);
    }
  }

  /** The qualities of the seven diatonic triads of a major key: I ii iii IV V vi vii°. */
  const DiatonicQualities: seq<ChordType> := [Major, Minor, Minor, Major, Major, Minor, Dim]

  /** The chord names of `row` have the roots `pcs`, position by position. */
  predicate RootsAre(row: seq<string>, pcs: seq<int>) {
    |row| == |pcs| && forall k :: 0 <= k < |row| ==> RootPitchClass(row[k]) == pcs[k]
  }

  /**
   * A diatonic list of `key`: seven chords, the first named by the key
   * itself, rooted on the key's major scale, with the diatonic qualities.
   */
  predicate DiatonicRow(key: string, row: seq<string>) {
    |row| == 7 && row[0] == key &&
    RootsAre(row, ScaleList(PitchClass(key))) &&
    forall k :: 0 <= k < 7 ==> ChordTypeOf(row[k]) == DiatonicQualities[k]
  }

  lemma RowFromParts(key: string, row: seq<string>, pcs: seq<int>)
    requires |row| == 7 && row[0] == key
    requires ScaleList(PitchClass(key)) == pcs && RootsAre(row, pcs)
    requires forall k :: 0 <= k < 7 ==> ChordTypeOf(row[k]) == DiatonicQualities[k]
    ensures DiatonicRow(key, row)
  {
  }

  lemma RootsInC()
    ensures RootPitchClass("C") == 0
    ensures RootPitchClass("Dm") == 2
    ensures RootPitchClass("Em") == 4
    ensures RootPitchClass("F") == 5
    ensures RootPitchClass("G") == 7
    ensures RootPitchClass("Am") == 9
    ensures RootPitchClass("B\U{00B0}") == 11
  {
  }

  lemma RowOfC()
    ensures "C" in DiatonicChordsForKey && DiatonicRow("C", DiatonicChordsForKey["C"])
  {
    assert DiatonicChordsForKey["C"] == ["C", "Dm", "Em", "F", "G", "Am", "B\U{00B0}"];
    assert ScaleList(PitchClass("C")) == [0, 2, 4, 5, 7, 9, 11];
    RootsInC();
    assert RootsAre(["C", "Dm", "Em", "F", "G", "Am", "B\U{00B0}"], [0, 2, 4, 5, 7, 9, 11]);
    RowFromParts("C", ["C", "Dm", "Em", "F", "G", "Am", "B\U{00B0}"], [0, 2, 4, 5, 7, 9, 11]);
  }

  lemma RootsInG()
    ensures RootPitchClass("G") == 7
    ensures RootPitchClass("Am") == 9
    ensures RootPitchClass("Bm") == 11
    ensures RootPitchClass("C") == 0
    ensures RootPitchClass("D") == 2
    ensures RootPitchClass("Em") == 4
    ensures RootPitchClass("F#\U{00B0}") == 6
  {
  }

  lemma RowOfG()
    ensures "G" in DiatonicChordsForKey && DiatonicRow("G", DiatonicChordsForKey["G"])
  {
    assert DiatonicChordsForKey["G"] == ["G", "Am", "Bm", "C", "D", "Em", "F#\U{00B0}"];
    assert ScaleList(PitchClass("G")) == [7, 9, 11, 0, 2, 4, 6];
    RootsInG();
    assert RootsAre(["G", "Am", "Bm", "C", "D", "Em", "F#\U{00B0}"], [7, 9, 11, 0, 2, 4, 6]);
    RowFromParts("G", ["G", "Am", "Bm", "C", "D", "Em", "F#\U{00B0}"], [7, 9, 11, 0, 2, 4, 6]);
  }

  lemma RootsInD()
    ensures RootPitchClass("D") == 2
    ensures RootPitchClass("Em") == 4
    ensures RootPitchClass("F#m") == 6
    ensures RootPitchClass("G") == 7
    ensures RootPitchClass("A") == 9
    ensures RootPitchClass("Bm") == 11
    ensures RootPitchClass("C#\U{00B0}") == 1
  {
  }

  lemma RowOfD()
    ensures "D" in DiatonicChordsForKey && DiatonicRow("D", DiatonicChordsForKey["D"])
  {
    assert DiatonicChordsForKey["D"] == ["D", "Em", "F#m", "G", "A", "Bm", "C#\U{00B0}"];
    assert ScaleList(PitchClass("D")) == [2, 4, 6, 7, 9, 11, 1];
    RootsInD();
    assert RootsAre(["D", "Em", "F#m", "G", "A", "Bm", "C#\U{00B0}"], [2, 4, 6, 7, 9, 11, 1]);
    RowFromParts("D", ["D", "Em", "F#m", "G", "A", "Bm", "C#\U{00B0}"], [2, 4, 6, 7, 9, 11, 1]);
  }

  lemma RootsInA()
    ensures RootPitchClass("A") == 9
    ensures RootPitchClass("Bm") == 11
    ensures RootPitchClass("C#m") == 1
    ensures RootPitchClass("D") == 2
    ensures RootPitchClass("E") == 4
    ensures RootPitchClass("F#m") == 6
    ensures RootPitchClass("G#\U{00B0}") == 8
  {
  }

  lemma RowOfA()
    ensures "A" in DiatonicChordsForKey && DiatonicRow("A", DiatonicChordsForKey["A"])
  {
    assert DiatonicChordsForKey["A"] == ["A", "Bm", "C#m", "D", "E", "F#m", "G#\U{00B0}"];
    assert ScaleList(PitchClass("A")) == [9, 11, 1, 2, 4, 6, 8];
    RootsInA();
    assert RootsAre(["A", "Bm", "C#m", "D", "E", "F#m", "G#\U{00B0}"], [9, 11, 1, 2, 4, 6, 8]);
    RowFromParts("A", ["A", "Bm", "C#m", "D", "E", "F#m", "G#\U{00B0}"], [9, 11, 1, 2, 4, 6, 8]);
  }

  lemma RootsInE()
    ensures RootPitchClass("E") == 4
    ensures RootPitchClass("F#m") == 6
    ensures RootPitchClass("G#m") == 8
    ensures RootPitchClass("A") == 9
    ensures RootPitchClass("B") == 11
    ensures RootPitchClass("C#m") == 1
    ensures RootPitchClass("D#\U{00B0}") == 3
  {
  }

  lemma RowOfE()
    ensures "E" in DiatonicChordsForKey && DiatonicRow("E", DiatonicChordsForKey["E"])
  {
    assert DiatonicChordsForKey["E"] == ["E", "F#m", "G#m", "A", "B", "C#m", "D#\U{00B0}"];
    assert ScaleList(PitchClass("E")) == [4, 6, 8, 9, 11, 1, 3];
    RootsInE();
    assert RootsAre(["E", "F#m", "G#m", "A", "B", "C#m", "D#\U{00B0}"], [4, 6, 8, 9, 11, 1, 3]);
    RowFromParts("E", ["E", "F#m", "G#m", "A", "B", "C#m", "D#\U{00B0}"], [4, 6, 8, 9, 11, 1, 3]);
  }

  lemma RootsInB()
    ensures RootPitchClass("B") == 11
    ensures RootPitchClass("C#m") == 1
    ensures RootPitchClass("D#m") == 3
    ensures RootPitchClass("E") == 4
    ensures RootPitchClass("F#") == 6
    ensures RootPitchClass("G#m") == 8
    ensures RootPitchClass("A#\U{00B0}") == 10
  {
  }

  lemma RowOfB()
    ensures "B" in DiatonicChordsForKey && DiatonicRow("B", DiatonicChordsForKey["B"])
  {
    assert DiatonicChordsForKey["B"] == ["B", "C#m", "D#m", "E", "F#", "G#m", "A#\U{00B0}"];
    assert ScaleList(PitchClass("B")) == [11, 1, 3, 4, 6, 8, 10];
    RootsInB();
    assert RootsAre(["B", "C#m", "D#m", "E", "F#", "G#m", "A#\U{00B0}"], [11, 1, 3, 4, 6, 8, 10]);
    RowFromParts("B", ["B", "C#m", "D#m", "E", "F#", "G#m", "A#\U{00B0}"], [11, 1, 3, 4, 6, 8, 10]);
  }

  lemma RootsInFSharp()
    ensures RootPitchClass("F#") == 6
    ensures RootPitchClass("G#m") == 8
    ensures RootPitchClass("A#m") == 10
    ensures RootPitchClass("B") == 11
    ensures RootPitchClass("C#") == 1
    ensures RootPitchClass("D#m") == 3
    ensures RootPitchClass("E#\U{00B0}") == 5
  {
  }

  lemma RowOfFSharp()
    ensures "F#" in DiatonicChordsForKey && DiatonicRow("F#", DiatonicChordsForKey["F#"])
  {
    assert DiatonicChordsForKey["F#"] == ["F#", "G#m", "A#m", "B", "C#", "D#m", "E#\U{00B0}"];
    assert ScaleList(PitchClass("F#")) == [6, 8, 10, 11, 1, 3, 5];
    RootsInFSharp();
    assert RootsAre(["F#", "G#m", "A#m", "B", "C#", "D#m", "E#\U{00B0}"], [6, 8, 10, 11, 1, 3, 5]);
    RowFromParts("F#", ["F#", "G#m", "A#m", "B", "C#", "D#m", "E#\U{00B0}"], [6, 8, 10, 11, 1, 3, 5]);
  }

  lemma RootsInDFlat()
    ensures RootPitchClass("Db") == 1
    ensures RootPitchClass("Ebm") == 3
    ensures RootPitchClass("Fm") == 5
    ensures RootPitchClass("Gb") == 6
    ensures RootPitchClass("Ab") == 8
    ensures RootPitchClass("Bbm") == 10
    ensures RootPitchClass("C\U{00B0}") == 0
  {
  }

  lemma RowOfDFlat()
    ensures "Db" in DiatonicChordsForKey && DiatonicRow("Db", DiatonicChordsForKey["Db"])
  {
    assert DiatonicChordsForKey["Db"] == ["Db", "Ebm", "Fm", "Gb", "Ab", "Bbm", "C\U{00B0}"];
    assert ScaleList(PitchClass("Db")) == [1, 3, 5, 6, 8, 10, 0];
    RootsInDFlat();
    assert RootsAre(["Db", "Ebm", "Fm", "Gb", "Ab", "Bbm", "C\U{00B0}"], [1, 3, 5, 6, 8, 10, 0]);
    RowFromParts("Db", ["Db", "Ebm", "Fm", "Gb", "Ab", "Bbm", "C\U{00B0}"], [1, 3, 5, 6, 8, 10, 0]);
  }

  lemma RootsInAFlat()
    ensures RootPitchClass("Ab") == 8
    ensures RootPitchClass("Bbm") == 10
    ensures RootPitchClass("Cm") == 0
    ensures RootPitchClass("Db") == 1
    ensures RootPitchClass("Eb") == 3
    ensures RootPitchClass("Fm") == 5
    ensures RootPitchClass("G\U{00B0}") == 7
  {
  }

  lemma RowOfAFlat()
    ensures "Ab" in DiatonicChordsForKey && DiatonicRow("Ab", DiatonicChordsForKey["Ab"])
  {
    assert DiatonicChordsForKey["Ab"] == ["Ab", "Bbm", "Cm", "Db", "Eb", "Fm", "G\U{00B0}"];
    assert ScaleList(PitchClass("Ab")) == [8, 10, 0, 1, 3, 5, 7];
    RootsInAFlat();
    assert RootsAre(["Ab", "Bbm", "Cm", "Db", "Eb", "Fm", "G\U{00B0}"], [8, 10, 0, 1, 3, 5, 7]);
    RowFromParts("Ab", ["Ab", "Bbm", "Cm", "Db", "Eb", "Fm", "G\U{00B0}"], [8, 10, 0, 1, 3, 5, 7]);
  }

  lemma RootsInEFlat()
    ensures RootPitchClass("Eb") == 3
    ensures RootPitchClass("Fm") == 5
    ensures RootPitchClass("Gm") == 7
    ensures RootPitchClass("Ab") == 8
    ensures RootPitchClass("Bb") == 10
    ensures RootPitchClass("Cm") == 0
    ensures RootPitchClass("D\U{00B0}") == 2
  {
  }

  lemma RowOfEFlat()
    ensures "Eb" in DiatonicChordsForKey && DiatonicRow("Eb", DiatonicChordsForKey["Eb"])
  {
    assert DiatonicChordsForKey["Eb"] == ["Eb", "Fm", "Gm", "Ab", "Bb", "Cm", "D\U{00B0}"];
    assert ScaleList(PitchClass("Eb")) == [3, 5, 7, 8, 10, 0, 2];
    RootsInEFlat();
    assert RootsAre(["Eb", "Fm", "Gm", "Ab", "Bb", "Cm", "D\U{00B0}"], [3, 5, 7, 8, 10, 0, 2]);
    RowFromParts("Eb", ["Eb", "Fm", "Gm", "Ab", "Bb", "Cm", "D\U{00B0}"], [3, 5, 7, 8, 10, 0, 2]);
  }

  lemma RootsInBFlat()
    ensures RootPitchClass("Bb") == 10
    ensures RootPitchClass("Cm") == 0
    ensures RootPitchClass("Dm") == 2
    ensures RootPitchClass("Eb") == 3
    ensures RootPitchClass("F") == 5
    ensures RootPitchClass("Gm") == 7
    ensures RootPitchClass("A\U{00B0}") == 9
  {
  }

  lemma RowOfBFlat()
    ensures "Bb" in DiatonicChordsForKey && DiatonicRow("Bb", DiatonicChordsForKey["Bb"])
  {
    assert DiatonicChordsForKey["Bb"] == ["Bb", "Cm", "Dm", "Eb", "F", "Gm", "A\U{00B0}"];
    assert ScaleList(PitchClass("Bb")) == [10, 0, 2, 3, 5, 7, 9];
    RootsInBFlat();
    assert RootsAre(["Bb", "Cm", "Dm", "Eb", "F", "Gm", "A\U{00B0}"], [10, 0, 2, 3, 5, 7, 9]);
    RowFromParts("Bb", ["Bb", "Cm", "Dm", "Eb", "F", "Gm", "A\U{00B0}"], [10, 0, 2, 3, 5, 7, 9]);
  }

  lemma RootsInF()
    ensures RootPitchClass("F") == 5
    ensures RootPitchClass("Gm") == 7
    ensures RootPitchClass("Am") == 9
    ensures RootPitchClass("Bb") == 10
    ensures RootPitchClass("C") == 0
    ensures RootPitchClass("Dm") == 2
    ensures RootPitchClass("E\U{00B0}") == 4
  {
  }

  lemma RowOfF()
    ensures "F" in DiatonicChordsForKey && DiatonicRow("F", DiatonicChordsForKey["F"])
  {
    assert DiatonicChordsForKey["F"] == ["F", "Gm", "Am", "Bb", "C", "Dm", "E\U{00B0}"];
    assert ScaleList(PitchClass("F")) == [5, 7, 9, 10, 0, 2, 4];
    RootsInF();
    assert RootsAre(["F", "Gm", "Am", "Bb", "C", "Dm", "E\U{00B0}"], [5, 7, 9, 10, 0, 2, 4]);
    RowFromParts("F", ["F", "Gm", "Am", "Bb", "C", "Dm", "E\U{00B0}"], [5, 7, 9, 10, 0, 2, 4]);
  }

  /**
   * Every major key of the circle has a diatonic list, and the numerals of
   * `DIATONIC_NUMERALS` label its seven entries one for one.
   */
  lemma DiatonicRows()
    ensures |DiatonicNumerals| == 7
    ensures forall i :: 0 <= i < |PositionalData| ==>
      PositionalData[i].major in DiatonicChordsForKey &&
      DiatonicRow(PositionalData[i].major, DiatonicChordsForKey[PositionalData[i].major])
  {
    forall i | 0 <= i < |PositionalData|
      ensures PositionalData[i].major in DiatonicChordsForKey &&
        DiatonicRow(PositionalData[i].major, DiatonicChordsForKey[PositionalData[i].major])
    {
      if i == 0 {
        RowOfC();
      } else if i == 1 {
        RowOfG();
      } else if i == 2 {
        RowOfD();
      } else if i == 3 {
        RowOfA();
      } else if i == 4 {
        RowOfE();
      } else if i == 5 {
        RowOfB();
      } else if i == 6 {
        RowOfFSharp();
      } else if i == 7 {
        RowOfDFlat();
      } else if i == 8 {
        RowOfAFlat();
      } else if i == 9 {
        RowOfEFlat();
      } else if i == 10 {
        RowOfBFlat();
      } else {
        RowOfF();
      }
    }
  }
}
