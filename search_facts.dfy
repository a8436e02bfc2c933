/**
 * What `findChordAndKeyFromNotes` promises: nothing exactly when the input
 * has no note or no chord of the library matches it; otherwise the first
 * match in search order, placed on the first key that holds it or, failing
 * that, at its root. The result depends only on the set of pitch classes
 * typed.
 */
module SearchFacts {
  import opened Wrappers
  import opened PitchClasses
  import opened Constants
  import opened ChordIntervals
  import opened NoteSignatures
  import opened MusicTheory
  import opened KeyFacts
  import opened NoteTokens
  import opened Search

  /** No valid position of the library has a chord with `signature`. */
  ghost predicate NoMatch(library: seq<ChordCategory>, signature: seq<int>) {
    forall q :: ValidPosition(library, q) ==> GetNoteSignature(NotesAt(library, q)) != signature
  }

  /** `p` holds a chord with `signature` and no position visited before it does. */
  ghost predicate FirstMatchAt(library: seq<ChordCategory>, signature: seq<int>, p: Position) {
    ValidPosition(library, p) && GetNoteSignature(NotesAt(library, p)) == signature &&
    forall q :: ValidPosition(library, q) && Precedes(q, p) ==> GetNoteSignature(NotesAt(library, q)) != signature
  }

  /** The chord search finds nothing exactly when nothing matches, and otherwise the first match. */
  lemma FirstChordSpec(library: seq<ChordCategory>, signature: seq<int>)
    ensures FirstChord(library, signature).None? <==> NoMatch(library, signature)
    ensures FirstChord(library, signature).Some? ==>
      exists p :: FirstMatchAt(library, signature, p) && FirstChord(library, signature).value == FoundAt(library, p)
  {
    var start := Position(0, 0, 0);
    var matches := SignatureMatches(library, signature);
    var r := FirstFrom(library, matches, start);
    assert forall q :: !Precedes(q, start);
    if r.Some? {
      var p := r.value;
      assert matches(p);
      forall q | ValidPosition(library, q) && Precedes(q, p)
        ensures GetNoteSignature(NotesAt(library, q)) != signature
      {
        assert !matches(q);
      }
      assert FirstMatchAt(library, signature, p);
    } else {
      forall q | ValidPosition(library, q)
        ensures GetNoteSignature(NotesAt(library, q)) != signature
      {
        assert !matches(q);
      }
    }
  }

  /** The key step always places a chord whose root is a valid note. */
  lemma PlaceOnCircleSpec(found: FoundChord)
    requires PitchClass(found.root) != -1
    ensures PlaceOnCircle(found).Some?
    ensures PlaceOnCircle(found).value.root == found.root
    ensures PlaceOnCircle(found).value.definition == found.definition
    ensures 0 <= PlaceOnCircle(found).value.keyIndex < |PositionalData|
    ensures PlaceOnCircle(found).value.key.Some? ==>
      var i := PlaceOnCircle(found).value.keyIndex;
      PlaceOnCircle(found).value.key.value == PositionalData[i].major &&
      ChordInKey(found.notes, i) &&
      forall j :: 0 <= j < i ==> !ChordInKey(found.notes, j)
    ensures PlaceOnCircle(found).value.key.None? ==>
      var i := PlaceOnCircle(found).value.keyIndex;
      (forall j :: 0 <= j < |PositionalData| ==> !ChordInKey(found.notes, j)) &&
      PitchClass(PositionalData[i].major) == PitchClass(found.root) &&
      i == (7 * PitchClass(found.root)) % 12
  {
    if FirstKeyFrom(found.notes, 0).None? {
      FindMajorIndexOfPitchClass(PitchClass(found.root));
      MajorRootsCoverPitchClasses();
    }
  }

  /** A distance above the root that the major scale reaches: 0, 2, 4, 5, 7, 9 or 11 semitones. */
  predicate IsScaleStep(d: int) {
    d == 0 || d == 2 || d == 4 || d == 5 || d == 7 || d == 9 || d == 11
  }

  lemma ScaleSteps(d: int)
    ensures d in MajorScaleIntervals <==> IsScaleStep(d)
  {
  }

  /** How many semitones `pc` lies above `root` within the octave. */
  function StepAbove(pc: int, root: int): int {
    if pc >= root then pc - root else pc - root + 12
  }

  lemma StepAboveIsMod(pc: int, root: int)
    requires 0 <= pc < 12 && 0 <= root < 12
    ensures StepAbove(pc, root) == (pc - root) % 12
  {
  }

  /** Every pitch class of `pcs` is a step of the major scale on `root`. */
  predicate InMajorScale(pcs: seq<int>, root: int) {
    forall k :: 0 <= k < |pcs| ==> 0 <= pcs[k] < 12 && IsScaleStep(StepAbove(pcs[k], root))
  }

  /** The pitch classes all lie in the diatonic set of `key` exactly when they are scale steps above its root. */
  lemma DiatonicByScale(pcs: seq<int>, key: string)
    requires PitchClass(key) != -1
    ensures (forall pc :: pc in pcs ==> pc in GetDiatonicPitchClasses(key)) <==> InMajorScale(pcs, PitchClass(key))
  {
    var root := PitchClass(key);
    DiatonicMembership(key);
    forall x | 0 <= x < 12
      ensures (x - root) % 12 in MajorScaleIntervals <==> IsScaleStep(StepAbove(x, root))
    {
      StepAboveIsMod(x, root);
      ScaleSteps((x - root) % 12);
    }
    if forall pc :: pc in pcs ==> pc in GetDiatonicPitchClasses(key) {
      forall k | 0 <= k < |pcs|
        ensures 0 <= pcs[k] < 12 && IsScaleStep(StepAbove(pcs[k], root))
      {
        assert pcs[k] in pcs;
      }
    }
  }

  /**
   * The key test by arithmetic: a chord lies in the key of circle position
   * `i` exactly when each of its pitch classes is a major-scale step above
   * that key's root, which sits `i` fifths above C.
   */
  lemma ChordInKeyByFifths(notes: seq<string>, i: int)
    requires 0 <= i < 12
    ensures |PositionalData| == 12
    ensures ChordInKey(notes, i) <==> InMajorScale(PitchClassesOf(notes), CircleRoots[i])
  {
    MajorRootOnCircle(i);
    DiatonicByScale(PitchClassesOf(notes), PositionalData[i].major);
  }

  /** The first circle position from `i` on whose major scale holds every pitch class. */
  function FirstFit(pcs: seq<int>, i: nat): Option<nat>
    requires i <= 12
    decreases 12 - i
  {
    if i == 12 then None
    else if InMajorScale(pcs, CircleRoots[i]) then Some(i)
    else FirstFit(pcs, i + 1)
  }

  /** The key loop of the search is the arithmetic scan of the circle of fifths. */
  lemma {:induction false} FirstKeyIsFirstFit(notes: seq<string>, i: nat)
    requires i <= 12
    ensures |PositionalData| == 12
    ensures FirstKeyFrom(notes, i) == FirstFit(PitchClassesOf(notes), i)
    decreases 12 - i
  {
    if i < 12 {
      ChordInKeyByFifths(notes, i);
      FirstKeyIsFirstFit(notes, i + 1);
    }
  }

  /** The roots the search tries are the sharp spellings, all valid notes. */
  lemma FoundRootIsValid(library: seq<ChordCategory>, p: Position)
    requires ValidPosition(library, p)
    ensures FoundAt(library, p).root in AllNotes
    ensures PitchClass(FoundAt(library, p).root) == p.root
  {
    SharpSpellings();
  }

  /**
   * `findChordAndKeyFromNotes` returns null exactly when the input has no
   * note token or no chord matches its signature; its final `return null`
   * cannot be reached.
   */
  lemma SearchFailsExactly(library: seq<ChordCategory>, noteInput: string)
    ensures FindChordAndKeyIn(library, noteInput).None? <==>
      MatchNotes(noteInput) == [] || NoMatch(library, GetNoteSignature(MatchNotes(noteInput)))
  {
    var inputNotes := MatchNotes(noteInput);
    if inputNotes != [] {
      var signature := GetNoteSignature(inputNotes);
      FirstChordSpec(library, signature);
      if FirstChord(library, signature).Some? {
        var p :| FirstMatchAt(library, signature, p) && FirstChord(library, signature).value == FoundAt(library, p);
        FoundRootIsValid(library, p);
        PlaceOnCircleSpec(FoundAt(library, p));
      }
    }
  }

  /**
   * A found chord is the first (root, category, entry) in search order
   * whose generated notes have the input's signature, with a sharp-spelled
   * root.
   */
  lemma SearchReportsFirstMatch(library: seq<ChordCategory>, noteInput: string)
    requires FindChordAndKeyIn(library, noteInput).Some?
    ensures var hit := FindChordAndKeyIn(library, noteInput).value;
      exists p :: FirstMatchAt(library, GetNoteSignature(MatchNotes(noteInput)), p) &&
        hit.root == AllNotes[p.root] && hit.definition == DefinitionAt(library, p)
  {
    var signature := GetNoteSignature(MatchNotes(noteInput));
    FirstChordSpec(library, signature);
    var p :| FirstMatchAt(library, signature, p) && FirstChord(library, signature).value == FoundAt(library, p);
    FoundRootIsValid(library, p);
    PlaceOnCircleSpec(FoundAt(library, p));
  }

  /**
   * The key of a found chord: the circle index is in range; a reported key
   * is the major of that index, holds every note of the chord and is the
   * first such; without a key no index holds the chord and the index is the
   * one whose major root has the chord root's pitch class.
   */
  lemma SearchResolvesKey(library: seq<ChordCategory>, noteInput: string)
    requires FindChordAndKeyIn(library, noteInput).Some?
    ensures var hit := FindChordAndKeyIn(library, noteInput).value;
      var notes := GetNotesForChordDefinition(hit.root, hit.definition.symbol);
      0 <= hit.keyIndex < |PositionalData| &&
      (hit.key.Some? ==>
        hit.key.value == PositionalData[hit.keyIndex].major &&
        ChordInKey(notes, hit.keyIndex) &&
        forall j :: 0 <= j < hit.keyIndex ==> !ChordInKey(notes, j)) &&
      (hit.key.None? ==>
        (forall j :: 0 <= j < |PositionalData| ==> !ChordInKey(notes, j)) &&
        PitchClass(PositionalData[hit.keyIndex].major) == PitchClass(hit.root))
  {
    var signature := GetNoteSignature(MatchNotes(noteInput));
    FirstChordSpec(library, signature);
    var p :| FirstMatchAt(library, signature, p) && FirstChord(library, signature).value == FoundAt(library, p);
    FoundRootIsValid(library, p);
    PlaceOnCircleSpec(FoundAt(library, p));
  }

  /** Token lists are empty exactly when they name no valid pitch class. */
  lemma TokensEmptyIffNoPitchClass(noteInput: string)
    ensures MatchNotes(noteInput) == [] <==> ValidPitchClasses(MatchNotes(noteInput)) == {}
  {
    var tokens := MatchNotes(noteInput);
    if tokens != [] {
      TokensAreNotes(noteInput);
      assert PitchClass(tokens[0]) in ValidPitchClasses(tokens);
    }
  }

  /**
   * The search sees only the set of pitch classes typed: inputs whose
   * tokens have the same pitch classes (in any order, with repetitions,
   * in any spelling) give the same result.
   */
  lemma SearchDependsOnlyOnPitchClasses(library: seq<ChordCategory>, a: string, b: string)
    requires ValidPitchClasses(MatchNotes(a)) == ValidPitchClasses(MatchNotes(b))
    ensures FindChordAndKeyIn(library, a) == FindChordAndKeyIn(library, b)
  {
    TokensEmptyIffNoPitchClass(a);
    TokensEmptyIffNoPitchClass(b);
    SignatureOfSameSet(MatchNotes(a), MatchNotes(b));
  }
}
