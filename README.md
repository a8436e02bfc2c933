# Chord dictionary: a verified model of its music-theory core

Chord-dictionary is a circle-of-fifths web app. The user types some notes, for example
"C Eb Gb". The app names the chord those notes form, finds the first major key on the
circle that holds the chord, and highlights that position. Arrow buttons step the
highlight around the circle.

This project models the logic behind the app in Dafny and proves its promised properties:

- **Pitch classes.** `noteToPitchClass` maps a note name to 0..11, or to -1 when the name
  is invalid. The model does this with a loop over the accidentals, as the source does,
  plus a reference function.
- **Chord generators.** The model covers:
  - `getRootNote`;
  - `getChordNotes`, fixed four-note shapes for diatonic chord names;
  - the `CHORD_INTERVALS` record;
  - `getNotesForChordDefinition`, which spells from the sharp or the flat table.
- **Signatures and keys.**
  - `getNoteSignature` gives the sorted, de-duplicated pitch classes of a note list. The
    model keeps them as a strictly increasing `seq<int>`, not the comma-joined string.
  - `getDiatonicPitchClasses` gives the major scale on a key.
- **Read-only tables from `constants.ts`.** These are the positions of the circle of
  fifths, the diatonic chords of each key, the degree numerals and the chord library.
- **The search `findChordAndKeyFromNotes`.** It has four stages:
  - a scanner for the regular expression `[A-G][#b♯♭]*`;
  - the triple loop over roots, categories and entries, where the first signature match
    wins;
  - the loop over the circle for the first key holding the chord;
  - the fallback to the chord root's own circle position.

  The loops are methods proved against the functions that specify them.
- **The `App` component's state.** It has two fields, `selectedKeyIndex` and
  `searchResult`. The class's constructor and the methods `HandlePrevious`, `HandleNext`
  and `HandleSearch` model the initial state and the three handlers.

Modules follow the program. Each module's file is given in parentheses.

- `Wrappers` (`wrappers.dfy`): the `Option` type.
- `PitchClasses` (`pitch_class.dfy`): `noteToPitchClass`, with JavaScript's `%`.
- `Constants` (`constants.dfy`): the tables of `constants.ts`.
- `ChordIntervals` (`chord_intervals.dfy`): `ALL_NOTES`, `ALL_NOTES_FLAT` and
  `CHORD_INTERVALS`.
- `LibraryFacts` (`library_facts.dfy`): symbols and interval lists of the library.
- `NoteSignatures` (`signature.dfy`): `getNoteSignature`.
- `MusicTheory` (`music_theory.dfy`): the generators and `getDiatonicPitchClasses`.
- `KeyFacts` (`key_facts.dfy`): the circle of fifths and the diatonic rows.
- `NoteTokens` (`tokenizer.dfy`): the note regular expression.
- `Search` (`search.dfy`): `findChordAndKeyFromNotes`.
- `SearchFacts` (`search_facts.dfy`): what the search promises.
- `SearchExamples` (`search_examples.dfy`): three worked searches.
- `AppState` (`app.dfy`): the `App` component.

The mojibake in `constants.ts` (`┬░`, `тЩн`, `тЩп`) is read as the characters it
stands for: `°` (U+00B0), `♭` (U+266D) and `♯` (U+266F). `utils/musicTheory.ts` writes
the `°` key of `CHORD_INTERVALS` correctly, and the library's `°` symbol must find it.

Two behaviours of the code are worth knowing:

- The note regular expression at `utils/musicTheory.ts:136` starts a token only at an
  upper-case A–G, so a lower-case note letter in the search input is skipped.
  `noteToPitchClass` itself upper-cases the first character, and the model does both.
- The final `return null` at `utils/musicTheory.ts:194` is modelled as `None`.
  `SearchFacts.SearchFailsExactly` shows that this branch cannot be reached.

## Model

| member | source | states |
|---|---|---|
| PitchClasses.BaseValue | utils/musicTheory.ts:14-19 | a letter has a base value exactly when it is A–G, and the value lies in 0..11 |
| PitchClasses.PitchClass | utils/musicTheory.ts:10-31 | -1 exactly for the empty string or an upper-cased first character outside A–G; otherwise a value in 0..11 |
| PitchClasses.NoteToPitchClass | utils/musicTheory.ts:10-31 | the accidental loop returns the reference pitch class for every input |
| PitchClasses.Normalise | utils/musicTheory.ts:30 | the normalised value lies in 0..11 for every integer; `NormaliseIsMod` says which one |
| PitchClasses.NormaliseIsMod | utils/musicTheory.ts:30 | `((x % 12) + 12) % 12` with truncating `%` equals Euclidean `x mod 12` and lies in 0..11 |
| PitchClasses.OffsetIsCount | utils/musicTheory.ts:21-27 | the loop's net adjustment is the number of sharps minus the number of flats; other characters are ignored |
| PitchClasses.PitchClassByCounts | utils/musicTheory.ts:10-31 | a valid note's pitch class is (base + #sharps − #flats) mod 12 |
| PitchClasses.SameBalanceSamePitchClass | utils/musicTheory.ts:21-30 | names with the same letter and the same sharp/flat balance have the same pitch class, so `#`≡`♯` and `b`≡`♭` |
| PitchClasses.EnharmonicExamples | utils/musicTheory.ts:10-31 | C# = Db = c♯ = 1 and E# = F = 5 |
| PitchClasses.SpellingExamples | utils/musicTheory.ts:10-31 | Cbb = Bb = B♭ = 10; unknown accidentals are skipped (Cx = 0); H and "" are invalid |
| MusicTheory.SharpSpellings | utils/musicTheory.ts:4 | `ALL_NOTES[k]` has pitch class k |
| MusicTheory.FlatSpellings | utils/musicTheory.ts:5 | `ALL_NOTES_FLAT[k]` has pitch class k |
| MusicTheory.GetRootNote | utils/musicTheory.ts:34-39 | the root is a prefix: two characters when the second is ASCII `#` or `b`, otherwise one (none for "") |
| MusicTheory.GetChordNotes | utils/musicTheory.ts:41-65 | [] for an invalid root; otherwise the dim, minor or major shape chosen by the suffix, spelled from `ALL_NOTES` on the root's pitch class |
| MusicTheory.SpelledPitchClasses | utils/musicTheory.ts:116-118 | spelling from either table keeps the length, and note i has pitch class (root + interval i) mod 12 |
| MusicTheory.NotesForIntervals | utils/musicTheory.ts:108-119 | [] for an invalid root or a missing entry; otherwise the intervals spelled on the root, flat names exactly when the root contains ASCII `b` |
| MusicTheory.GetNotesForChordDefinition | utils/musicTheory.ts:108-119 | no contract of its own: it spells the record's entry for the symbol, so `NotesForIntervals` and `IntervalsForSpec` state what it returns |
| MusicTheory.SpellingKeepsPitchClasses | utils/musicTheory.ts:108-119 | roots of equal pitch class give the same pitch classes and signature, whichever table spells them |
| MusicTheory.GetDiatonicPitchClasses | utils/musicTheory.ts:127-133 | no contract of its own; `DiatonicMembership` and `DiatonicSize` state what the set holds |
| MusicTheory.DiatonicMembership | utils/musicTheory.ts:127-133 | empty for an invalid key; otherwise x is in the set exactly when x − root mod 12 is a major-scale step |
| MusicTheory.DiatonicSize | utils/musicTheory.ts:127-133 | a valid key's diatonic set has seven elements |
| ChordIntervals.LookupFromSpec | utils/musicTheory.ts:112 | the lookup in one block fails exactly when no entry has the symbol; a hit is an entry's list |
| ChordIntervals.LookupGroupsFromSpec | utils/musicTheory.ts:112 | the lookup over the blocks fails exactly when no block has the symbol; a hit is an entry's list |
| ChordIntervals.IntervalsFor | utils/musicTheory.ts:112 | no contract of its own; `IntervalsForSpec` states when the lookup is undefined and what it returns otherwise |
| ChordIntervals.IntervalsForSpec | utils/musicTheory.ts:69-106 | `CHORD_INTERVALS[symbol]` is undefined exactly when the record has no such key, and otherwise is that key's list |
| LibraryFacts.GroupSizes | constants.ts:71-203 | the library's ten categories line up with the ten blocks of the interval record, entry for entry |
| LibraryFacts.LibrarySymbolsDistinct | constants.ts:71-203 | no two library entries share a symbol |
| LibraryFacts.IntervalsOfLibraryChord | utils/musicTheory.ts:69-106 | every library symbol has the interval list at its own position, starting at 0 and strictly increasing |
| LibraryFacts.IntervalsExactlyForLibrarySymbols | utils/musicTheory.ts:69-106 | the record has an entry for a symbol exactly when the library lists it |
| NoteSignatures.DropInvalid | utils/musicTheory.ts:122 | keeps exactly the pitch classes other than -1 |
| NoteSignatures.Dedupe | utils/musicTheory.ts:123 | the same elements, without duplicates |
| NoteSignatures.Insert | utils/musicTheory.ts:124 | the result is strictly increasing and adds x to the multiset |
| NoteSignatures.SortAscending | utils/musicTheory.ts:124 | a strictly increasing permutation of its input |
| NoteSignatures.GetNoteSignature | utils/musicTheory.ts:121-125 | no contract of its own; `SignatureSpec`, `SignatureOfSameSet` and `SignatureIgnoresOrderAndDuplicates` state what it returns |
| NoteSignatures.SignatureSpec | utils/musicTheory.ts:121-125 | the signature is strictly increasing, in 0..11, and holds exactly the valid pitch classes |
| NoteSignatures.StrictlyIncreasingUnique | utils/musicTheory.ts:124 | two strictly increasing lists with the same elements are equal |
| NoteSignatures.SignatureOfSameSet | utils/musicTheory.ts:121-125 | note lists with the same valid pitch classes have the same signature |
| NoteSignatures.SignatureIgnoresOrderAndDuplicates | utils/musicTheory.ts:121-125 | reordering or repeating notes does not change the signature |
| KeyFacts.CircleOfFifths | constants.ts:3-16 | twelve positions; position i's major has pitch class 7i mod 12, its minor root lies 9 and its dim root 11 semitones above, with suffixes `m` and `°` |
| KeyFacts.MajorRootOnCircle | constants.ts:3-16 | position i's major root is the i-th entry of the fifths table |
| KeyFacts.CircleRootsAreFifths | constants.ts:3-16 | the fifths table is 7i mod 12 |
| KeyFacts.MajorRootsCoverPitchClasses | constants.ts:3-16 | every pitch class is the major root of exactly one position |
| KeyFacts.DiatonicRows | constants.ts:54-69 | for every circle major, the table lists seven chords, the first named by the key, rooted on its major scale, with qualities major, m, m, major, major, m, °; the numerals are seven |
| KeyFacts.RowOfC | constants.ts:55 | the row of C is diatonic |
| KeyFacts.RowOfG | constants.ts:56 | the row of G is diatonic |
| KeyFacts.RowOfD | constants.ts:57 | the row of D is diatonic |
| KeyFacts.RowOfA | constants.ts:58 | the row of A is diatonic |
| KeyFacts.RowOfE | constants.ts:59 | the row of E is diatonic |
| KeyFacts.RowOfB | constants.ts:60 | the row of B is diatonic |
| KeyFacts.RowOfFSharp | constants.ts:61 | the row of F# is diatonic |
| KeyFacts.RowOfDFlat | constants.ts:62 | the row of Db is diatonic |
| KeyFacts.RowOfAFlat | constants.ts:63 | the row of Ab is diatonic |
| KeyFacts.RowOfEFlat | constants.ts:64 | the row of Eb is diatonic |
| KeyFacts.RowOfBFlat | constants.ts:65 | the row of Bb is diatonic |
| KeyFacts.RowOfF | constants.ts:66 | the row of F is diatonic |
| NoteTokens.AccidentalSpan | utils/musicTheory.ts:136 | the greedy `[#b♯♭]*`: the longest run of accidentals at the front |
| NoteTokens.MatchNotes | utils/musicTheory.ts:136-137 | every token is a letter A–G followed by accidentals; `TokensAreLongestMatches` says which ones |
| NoteTokens.TokenAt | utils/musicTheory.ts:136 | the text taken at a position starts with that character, and is a token exactly when the character is a note letter |
| NoteTokens.LetterPositionsSpec | utils/musicTheory.ts:136 | the positions listed are exactly the upper-case A–G of the input, in increasing order |
| NoteTokens.TokensAreLongestMatches | utils/musicTheory.ts:136-137 | for every input, there is one token per note letter, and token j is the j-th note letter followed by the longest run of accidentals after it |
| NoteTokens.TokensFollowLetters | utils/musicTheory.ts:136-137 | one token per upper-case note letter of the input, in order, each starting with its letter |
| NoteTokens.NoTokensIffNoLetters | utils/musicTheory.ts:136-141 | no match exactly when the input has no upper-case A–G |
| NoteTokens.TokensAreNotes | utils/musicTheory.ts:136-143 | every token is a valid note |
| NoteTokens.TokensRoundTrip | utils/musicTheory.ts:136-137 | tokenizing tokens joined by spaces gives the tokens back |
| Search.FirstFrom | utils/musicTheory.ts:146-159 | the first position in roots × categories × entries order at or after a cursor that satisfies the test; every earlier position fails it |
| Search.FirstKeyFrom | utils/musicTheory.ts:164-179 | the first circle position from i whose diatonic set holds the chord; none before it does |
| Search.MajorIndexFrom | utils/musicTheory.ts:183 | `findIndex`: the first position whose major has the pitch class, else -1 |
| Search.FindMajorIndexOfPitchClass | utils/musicTheory.ts:182-185 | every pitch class is found, at 7·pc mod 12 |
| Search.FindChordAndKeyIn | utils/musicTheory.ts:135-195 | no contract of its own; the `SearchFacts` rows state what it returns |
| Search.FindChordAndKey | utils/musicTheory.ts:135-195 | no contract of its own: it is `FindChordAndKeyIn` over `CHORD_LIBRARY` |
| Search.SearchStep | utils/musicTheory.ts:146-159 | one step of the nested loops: stop at a matching entry, otherwise move on |
| Search.SkipEntry | utils/musicTheory.ts:149-154 | an entry whose signature differs is passed over |
| Search.StopAtEntry | utils/musicTheory.ts:151-153 | an entry whose signature matches ends the search |
| Search.FindInCategory | utils/musicTheory.ts:149-155 | the entry loop finds the first match of the category or hands on to the next category |
| Search.FindFirstChord | utils/musicTheory.ts:146-159 | the triple loop returns the first chord in search order with the input's signature |
| Search.PlaceChordOnCircle | utils/musicTheory.ts:164-194 | the key loop and the fallback compute the key step |
| Search.SearchLibrary | utils/musicTheory.ts:135-195 | the whole search over a given library |
| Search.FindChordAndKeyFromNotes | utils/musicTheory.ts:135-195 | the whole search over `CHORD_LIBRARY` |
| SearchFacts.FirstChordSpec | utils/musicTheory.ts:146-161 | no chord exactly when no position matches; otherwise the first matching position |
| SearchFacts.PlaceOnCircleSpec | utils/musicTheory.ts:164-194 | a valid root is always placed: a found key is the first holding the chord; without one no key holds it and the index is the root's position |
| SearchFacts.DiatonicByScale | utils/musicTheory.ts:127-133 | the notes lie in the key exactly when each is a major-scale step above its root |
| SearchFacts.ChordInKeyByFifths | utils/musicTheory.ts:164-171 | the key test at circle position i is the scale test on the root i fifths above C |
| SearchFacts.FirstKeyIsFirstFit | utils/musicTheory.ts:164-179 | the key loop is the scan of the circle for the first fitting major scale |
| SearchFacts.FoundRootIsValid | utils/musicTheory.ts:147 | a found root is a sharp spelling with the position's pitch class |
| SearchFacts.SearchFailsExactly | utils/musicTheory.ts:136-194 | the search fails exactly when no token matches or no chord has the signature; the final `return null` is unreachable |
| SearchFacts.SearchReportsFirstMatch | utils/musicTheory.ts:143-159 | a found chord is the first position in search order with the input's signature |
| SearchFacts.SearchResolvesKey | utils/musicTheory.ts:164-192 | the index lies in 0..11; a key is that position's major, holds the chord and is the first such; without a key no position holds it and the index has the root's pitch class |
| SearchFacts.TokensEmptyIffNoPitchClass | utils/musicTheory.ts:137-143 | no tokens exactly when the tokens name no pitch class |
| SearchFacts.SearchDependsOnlyOnPitchClasses | utils/musicTheory.ts:135-195 | inputs naming the same pitch classes give the same result |
| SearchExamples.ThreeTypedNotes | utils/musicTheory.ts:136-137 | three tokens typed with a space between each are read back as those three tokens |
| SearchExamples.SearchCEG | utils/musicTheory.ts:135-195 | "C E G" gives the major triad on C, key C, position 0 |
| SearchExamples.SearchCEbGb | utils/musicTheory.ts:135-195 | "C Eb Gb" gives the diminished triad on C, key Db, position 7 |
| SearchExamples.SearchCEGSharp | utils/musicTheory.ts:135-195 | "C E G#" gives the augmented triad on C with no key, at position 0 |
| SearchExamples.DiminishedFirstIn | utils/musicTheory.ts:146-159 | the {0,3,6} signature passes over the major, minor and augmented triads to the diminished one |
| SearchExamples.AugmentedFit | utils/musicTheory.ts:164-179 | {0,4,8} lies in no major scale |
| AppState.Trim | App.tsx:21 | no contract of its own; `TrimSpec` and `TrimEmptyIffBlank` state what `trim()` returns |
| AppState.TrimSpec | App.tsx:21 | `trim()` keeps one contiguous part of the input that neither starts nor ends with white space; everything removed around it is white space |
| AppState.TrimEmptyIffBlank | App.tsx:21 | `trim()` gives "" exactly for an all-whitespace input |
| AppState.NextIndex | App.tsx:17 | `(i + 1) % 12` lies on the circle when i + 1 ≥ 0; with JavaScript's `%` a negative dividend gives a value in −11..0 |
| AppState.PreviousIndex | App.tsx:13 | `(i − 1 + 12) % 12` lies on the circle when i − 1 + 12 ≥ 0, and otherwise in −11..0 |
| AppState.RotationSteps | App.tsx:12-18 | Next and Previous step one position each way, stay on the circle and undo each other |
| AppState.KeysAreNonEmpty | App.tsx:29 | a reported key is never the falsy empty string |
| AppState.App.constructor | App.tsx:9-10 | C major selected, no search result |
| AppState.App.HandlePrevious | App.tsx:12-14 | the index moves one position counter-clockwise; the result is unchanged |
| AppState.App.HandleNext | App.tsx:16-18 | the index moves one position clockwise; the result is unchanged |
| AppState.App.HandleSearch | App.tsx:20-53 | a blank input clears the result; no hit sets the not-found message; a hit selects its index and files it as in-key or non-diatonic |

## Left out

- The React components, JSX, hooks, memoisation and rendering are left out. This covers
  the circle's gesture and angle arithmetic, the layout and colours (`NOTE_COLORS`,
  `MODES_DATA`) and the info panel. They are display and I/O, not logic.
- `getNoteSignature` joins the sorted pitch classes with commas; the model keeps the list.
  Joining distinct sorted numbers is injective, so comparing signatures means the same.
- Strings are sequences of Unicode characters, not UTF-16 code units. The note symbols
  used are all in the Basic Multilingual Plane.
- `toUpperCase` is modelled on ASCII letters only. Other characters never make a valid
  note.
- The regular expression engine is replaced by a scanner for the same language.
- `CHORD_INTERVALS` is a plain object, so a symbol such as `toString` would find an
  inherited property. The model looks up only the record's own keys.
- The display names and degree labels of `CHORD_LIBRARY` are carried as data, with no
  properties about them.
- The search is also stated over any library (`FindChordAndKeyIn`).
  `FindChordAndKeyFromNotes` fixes it to `CHORD_LIBRARY`.
- The `break` out of the innermost loop becomes a `return` from `FindInCategory`. The
  outer `if (foundChord) break` tests become loop exits on the returned option.
- Concrete searches that scan past the first root or category are not proved
  (for example "A C E G" → C6, "C Eb Gb A" → C°7, "B D F" → key C). Passing every
  earlier entry by name is too costly to check. The first-match order they illustrate is
  what `SearchFacts.SearchReportsFirstMatch` states.
