/**
 * `findChordAndKeyFromNotes`: identify a chord from typed notes and place it
 * on the circle of fifths. The notes are tokenized and reduced to their
 * signature; the first (root, category, entry) of the library, roots in
 * `ALL_NOTES` order, whose generated notes have the same signature is the
 * chord; the first key clockwise from C whose major scale holds every note
 * of the chord is its key; failing that, the chord is placed at the circle
 * position of its root.
 */
module Search {
  import opened Wrappers
  import opened PitchClasses
  import opened Constants
  import opened ChordIntervals
  import opened NoteSignatures
  import opened MusicTheory
  import opened KeyFacts
  import opened NoteTokens

  /** A place in the search order: a root of `ALL_NOTES`, a category and an entry of it. */
  datatype Position = Position(root: nat, category: nat, entry: nat)

  predicate ValidPosition(library: seq<ChordCategory>, p: Position) {
    p.root < |AllNotes| && p.category < |library| && p.entry < |library[p.category].chords|
  }

  /**
   * A point the loops of the search can stand at: every valid position, the
   * end of a category, the end of a root's library, and the end of the roots.
   */
  predicate Cursor(library: seq<ChordCategory>, p: Position) {
    p.root <= |AllNotes| && p.category <= |library| &&
    (p.category < |library| ==> p.entry <= |library[p.category].chords|)
  }

  /** `p` is visited before `q`: the order of the three nested loops. */
  predicate Precedes(p: Position, q: Position) {
    p.root < q.root ||
    (p.root == q.root && (p.category < q.category || (p.category == q.category && p.entry < q.entry)))
  }

  function DefinitionAt(library: seq<ChordCategory>, p: Position): ChordDefinition
    requires ValidPosition(library, p)
  {
    library[p.category].chords[p.entry]
  }

  /** The notes the search generates at `p`. */
  function NotesAt(library: seq<ChordCategory>, p: Position): seq<string>
    requires ValidPosition(library, p)
  {
    GetNotesForChordDefinition(AllNotes[p.root], DefinitionAt(library, p).symbol)
  }

  /** The chord at `p` has the signature `signature`. */
  predicate MatchesAt(library: seq<ChordCategory>, signature: seq<int>, p: Position)
    requires ValidPosition(library, p)
  {
    GetNoteSignature(NotesAt(library, p)) == signature
  }

  /** Where the search goes after the cursor `p`, when nothing matched there. */
  function Advance(library: seq<ChordCategory>, p: Position): Position
    requires Cursor(library, p)
  {
    if p.category == |library| then Position(p.root + 1, 0, 0)
    else if p.entry == |library[p.category].chords| then Position(p.root, p.category + 1, 0)
    else Position(p.root, p.category, p.entry + 1)
  }

  /**
   * The first position at or after the cursor `p` that satisfies `matches`,
   * in the order of the loops: it satisfies `matches`, and no valid
   * position between `p` and it does; without one, no valid position from
   * `p` on does.
   */
  function FirstFrom(library: seq<ChordCategory>, matches: Position -> bool, p: Position): (r: Option<Position>)
    requires Cursor(library, p)
    ensures r.Some? ==> ValidPosition(library, r.value) && matches(r.value) && !Precedes(r.value, p)
    ensures forall q :: ValidPosition(library, q) && !Precedes(q, p) && (r.Some? ==> Precedes(q, r.value)) ==>
      !matches(q)
    decreases |AllNotes| - p.root, |library| - p.category,
      if p.category < |library| then |library[p.category].chords| - p.entry else 0
  {
    if p.root == |AllNotes| then None
    else if p.category == |library| || p.entry == |library[p.category].chords| then
      FirstFrom(library, matches, Advance(library, p))
    else if matches(p) then Some(p)
    else FirstFrom(library, matches, Advance(library, p))
  }

  /** The positions whose generated notes have the signature `signature`. */
  function SignatureMatches(library: seq<ChordCategory>, signature: seq<int>): Position -> bool {
    q => ValidPosition(library, q) && MatchesAt(library, signature, q)
  }

  /** The first position whose chord has the signature `signature`. */
  function FirstMatchFrom(library: seq<ChordCategory>, signature: seq<int>, p: Position): Option<Position>
    requires Cursor(library, p)
  {
    FirstFrom(library, SignatureMatches(library, signature), p)
  }

  /** `foundChordPitchClasses.every(pc => diatonicPitchClasses.has(pc))` for the key at `i`. */
  predicate ChordInKey(notes: seq<string>, i: int)
    requires 0 <= i < |PositionalData|
  {
    forall pc :: pc in PitchClassesOf(notes) ==> pc in GetDiatonicPitchClasses(PositionalData[i].major)
  }

  /** The first circle position from `i` on whose key contains every note. */
  function FirstKeyFrom(notes: seq<string>, i: nat): (r: Option<nat>)
    requires i <= |PositionalData|
    ensures r.Some? ==> i <= r.value < |PositionalData| && ChordInKey(notes, r.value)
    ensures forall j :: i <= j < |PositionalData| && (r.Some? ==> j < r.value) ==> !ChordInKey(notes, j)
    decreases |PositionalData| - i
  {
    if i == |PositionalData| then None
    else if ChordInKey(notes, i) then Some(i)
    else FirstKeyFrom(notes, i + 1)
  }

  /** `POSITIONAL_DATA.findIndex(...)` from position `i`: the first major root with pitch class `pc`, else -1. */
  function MajorIndexFrom(pc: int, i: nat): (r: int)
    requires i <= |PositionalData|
    ensures r == -1 || (i <= r < |PositionalData| && PitchClass(PositionalData[r].major) == pc)
    ensures forall j :: i <= j < |PositionalData| && (r != -1 ==> j < r) ==> PitchClass(PositionalData[j].major) != pc
    decreases |PositionalData| - i
  {
    if i == |PositionalData| then -1
    else if PitchClass(PositionalData[i].major) == pc then i
    else MajorIndexFrom(pc, i + 1)
  }

  function FindMajorIndex(pc: int): int {
    MajorIndexFrom(pc, 0)
  }

  /** Every pitch class is found on the circle, at `7 * pc mod 12`. */
  lemma FindMajorIndexOfPitchClass(pc: int)
    requires 0 <= pc < 12
    ensures FindMajorIndex(pc) == (7 * pc) % 12
  {
    MajorRootsCoverPitchClasses();
    CircleOfFifths();
    assert PitchClass(PositionalData[(7 * pc) % 12].major) == pc;
  }

  /** The result of a search: the chord's root and definition, the key if any, and the circle position. */
  datatype SearchHit = SearchHit(root: string, definition: ChordDefinition, key: Option<string>, keyIndex: int)

  /** The `foundChord` record of the search loop. */
  datatype FoundChord = FoundChord(root: string, definition: ChordDefinition, notes: seq<string>)

  /** The chord at `p` as the search loop records it. */
  function FoundAt(library: seq<ChordCategory>, p: Position): FoundChord
    requires ValidPosition(library, p)
  {
    FoundChord(AllNotes[p.root], DefinitionAt(library, p), NotesAt(library, p))
  }

  /** The chord the search settles on, if any. */
  function FirstChord(library: seq<ChordCategory>, signature: seq<int>): Option<FoundChord> {
    match FirstMatchFrom(library, signature, Position(0, 0, 0))
    case None => None
    case Some(p) => Some(FoundAt(library, p))
  }

  /** The key step of the search, for the found chord. */
  function PlaceOnCircle(found: FoundChord): Option<SearchHit> {
    match FirstKeyFrom(found.notes, 0)
    case Some(i) => Some(SearchHit(found.root, found.definition, Some(PositionalData[i].major), i))
    case None =>
      var index := FindMajorIndex(PitchClass(found.root));
      if index != -1 then Some(SearchHit(found.root, found.definition, None, index)) else None
  }

  /** What the search computes over a chord library, as a function of its input. */
  function FindChordAndKeyIn(library: seq<ChordCategory>, noteInput: string): Option<SearchHit> {
    var inputNotes := MatchNotes(noteInput);
    if inputNotes == [] then None
    else match FirstChord(library, GetNoteSignature(inputNotes))
      case None => None
      case Some(found) => PlaceOnCircle(found)
  }

  /** What `findChordAndKeyFromNotes` computes: the search over `CHORD_LIBRARY`. */
  function FindChordAndKey(noteInput: string): Option<SearchHit> {
    FindChordAndKeyIn(ChordLibrary, noteInput)
  }

  /** One step of the loops: a valid position either satisfies `matches` or is skipped; other cursors are skipped. */
  lemma FirstFromStep(library: seq<ChordCategory>, matches: Position -> bool, p: Position)
    requires Cursor(library, p) && p.root < |AllNotes|
    ensures Cursor(library, Advance(library, p))
    ensures FirstFrom(library, matches, p) ==
      if ValidPosition(library, p) && matches(p) then Some(p) else FirstFrom(library, matches, Advance(library, p))
  {
  }

  /** One step of the chord search: the chord at a valid position is reported if it matches, else skipped. */
  lemma SearchStep(library: seq<ChordCategory>, signature: seq<int>, p: Position)
    requires Cursor(library, p) && p.root < |AllNotes|
    ensures Cursor(library, Advance(library, p))
    ensures FirstMatchFrom(library, signature, p) ==
      if ValidPosition(library, p) && GetNoteSignature(NotesAt(library, p)) == signature then Some(p)
      else FirstMatchFrom(library, signature, Advance(library, p))
  {
    FirstFromStep(library, SignatureMatches(library, signature), p);
  }

  /** The scan moves past an entry whose signature is not the one sought, to the next entry of its category (or its end). */
  lemma SkipEntry(library: seq<ChordCategory>, signature: seq<int>, p: Position)
    requires ValidPosition(library, p)
    requires !MatchesAt(library, signature, p)
    ensures FirstMatchFrom(library, signature, p) == FirstMatchFrom(library, signature, Position(p.root, p.category, p.entry + 1))
  {
    SearchStep(library, signature, p);
    assert Advance(library, p) == Position(p.root, p.category, p.entry + 1);
  }

  /** The scan stops at an entry with the signature sought. */
  lemma StopAtEntry(library: seq<ChordCategory>, signature: seq<int>, p: Position)
    requires ValidPosition(library, p) && MatchesAt(library, signature, p)
    ensures FirstMatchFrom(library, signature, p) == Some(p)
  {
    SearchStep(library, signature, p);
  }

  /**
   * The innermost loop of step 1 of `findChordAndKeyFromNotes`: the entries
   * of category `c` on root `r`, in order, up to the first whose signature
   * is the input's. Either that entry is the first match from the start of
   * the category, or there is none and the search goes on with the next
   * category.
   */
  method FindInCategory(library: seq<ChordCategory>, inputSignature: seq<int>, r: nat, c: nat)
    returns (foundChord: Option<FoundChord>, ghost at: Position)
    requires r < |AllNotes| && c < |library|
    ensures foundChord.None? ==>
      FirstMatchFrom(library, inputSignature, Position(r, c, 0)) ==
      FirstMatchFrom(library, inputSignature, Position(r, c + 1, 0))
    ensures foundChord.Some? ==>
      ValidPosition(library, at) &&
      FirstMatchFrom(library, inputSignature, Position(r, c, 0)) == Some(at) &&
      foundChord.value == FoundAt(library, at)
  {
    var root := AllNotes[r];
    var category := library[c];
    foundChord := None;
    at := Position(r, c, 0);
    var e := 0;
    while e < |category.chords|
      invariant 0 <= e <= |category.chords|
      invariant FirstMatchFrom(library, inputSignature, Position(r, c, 0)) ==
        FirstMatchFrom(library, inputSignature, Position(r, c, e))
    {
      var definition := category.chords[e];
      var chordNotes := GetNotesForChordDefinition(root, definition.symbol);
      ghost var here := Position(r, c, e);
      assert chordNotes == NotesAt(library, here);
      if GetNoteSignature(chordNotes) == inputSignature {
        assert FirstMatchFrom(library, inputSignature, here) == Some(here) by {
          StopAtEntry(library, inputSignature, here);
        }
        foundChord := Some(FoundChord(root, definition, chordNotes));
        at := here;
        return;
      }
      assert FirstMatchFrom(library, inputSignature, here) ==
        FirstMatchFrom(library, inputSignature, Position(r, c, e + 1)) by {
        SkipEntry(library, inputSignature, here);
      }
      e := e + 1;
    }
    SearchStep(library, inputSignature, Position(r, c, e));
  }

  /**
   * Step 1 of `findChordAndKeyFromNotes`: roots, then categories, then
   * entries, stopping at the first chord whose signature is the input's.
   */
  method FindFirstChord(library: seq<ChordCategory>, inputSignature: seq<int>) returns (foundChord: Option<FoundChord>)
    ensures foundChord == FirstChord(library, inputSignature)
  {
    ghost var start := Position(0, 0, 0);
    ghost var at := start;
    foundChord := None;
    var r := 0;
    while r < |AllNotes|
      invariant 0 <= r <= |AllNotes|
      invariant foundChord.None?
      invariant FirstMatchFrom(library, inputSignature, start) == FirstMatchFrom(library, inputSignature, Position(r, 0, 0))
    {
      var c := 0;
      while c < |library|
        invariant 0 <= c <= |library|
        invariant foundChord.None?
        invariant FirstMatchFrom(library, inputSignature, start) == FirstMatchFrom(library, inputSignature, Position(r, c, 0))
      {
        foundChord, at := FindInCategory(library, inputSignature, r, c);
        if foundChord.Some? {
          break;
        }
        c := c + 1;
      }
      if foundChord.Some? {
        break;
      }
      SearchStep(library, inputSignature, Position(r, c, 0));
      r := r + 1;
    }
  }

  /**
   * Steps 2 and 3 of `findChordAndKeyFromNotes`: the first key clockwise
   * from C holding every note of the chord, else the circle position of the
   * chord's root.
   */
  method PlaceChordOnCircle(found: FoundChord) returns (result: Option<SearchHit>)
    ensures result == PlaceOnCircle(found)
  {
    var i := 0;
    while i < |PositionalData|
      invariant 0 <= i <= |PositionalData|
      invariant FirstKeyFrom(found.notes, 0) == FirstKeyFrom(found.notes, i)
    {
      var keyData := PositionalData[i];
      var diatonicPitchClasses := GetDiatonicPitchClasses(keyData.major);
      var foundChordPitchClasses := PitchClassesOf(found.notes);
      var chordIsInKey := forall pc :: pc in foundChordPitchClasses ==> pc in diatonicPitchClasses;
      if chordIsInKey {
        return Some(SearchHit(found.root, found.definition, Some(keyData.major), i));
      }
      i := i + 1;
    }

    var rootPitchClass := NoteToPitchClass(found.root);
    var rootNoteIndexOnCircle := FindMajorIndex(rootPitchClass);
    if rootNoteIndexOnCircle != -1 {
      return Some(SearchHit(found.root, found.definition, None, rootNoteIndexOnCircle));
    }
    return None;
  }

  /** The body of `findChordAndKeyFromNotes` over a chord library. */
  method SearchLibrary(library: seq<ChordCategory>, noteInput: string) returns (result: Option<SearchHit>)
    ensures result == FindChordAndKeyIn(library, noteInput)
  {
    var inputNotes := MatchNotes(noteInput);
    if inputNotes == [] {
      return None;
    }
    var inputSignature := GetNoteSignature(inputNotes);
    var foundChord := FindFirstChord(library, inputSignature);
    if foundChord.None? {
      return None;
    }
    result := PlaceChordOnCircle(foundChord.value);
  }

  /** `findChordAndKeyFromNotes`, which reads the global `CHORD_LIBRARY`. */
  method FindChordAndKeyFromNotes(noteInput: string) returns (result: Option<SearchHit>)
    ensures result == FindChordAndKey(noteInput)
  {
    result := SearchLibrary(ChordLibrary, noteInput);
  }
}
