/**
 * The pitch-class normaliser of utils/musicTheory.ts: a note token (a letter
 * followed by accidentals) becomes a pitch class 0..11, or -1 when the first
 * character is not a note letter.
 */
module PitchClasses {
  import opened Wrappers

  /** U+266F MUSIC SHARP SIGN and U+266D MUSIC FLAT SIGN. */
  const SharpSign: char := '\U{266F}'
  const FlatSign: char := '\U{266D}'

  /** Sharps may be written `#` or `♯`, flats `b` or `♭`. */
  predicate IsSharp(c: char) { c == '#' || c == SharpSign }

  predicate IsFlat(c: char) { c == 'b' || c == FlatSign }

  /** `toUpperCase` on one character, for the ASCII letters that matter here. */
  function ToUpper(c: char): char {
    if 'a' <= c <= 'z' then (c as int - 32) as char else c
  }

  predicate IsNoteLetter(c: char) { 'A' <= c <= 'G' }

  /** The `baseValues` record: the pitch class of each natural note. */
  function BaseValue(letter: char): (r: Option<int>)
    ensures r.Some? <==> IsNoteLetter(letter)
    ensures r.Some? ==> 0 <= r.value < 12
  {
    match letter
    case 'C' => Some(0)
    case 'D' => Some(2)
    case 'E' => Some(4)
    case 'F' => Some(5)
    case 'G' => Some(7)
    case 'A' => Some(9)
    case 'B' => Some(11)
    case _ => None
  }

  /** What one character after the letter does to the pitch: +1, -1 or nothing. */
  function Step(c: char): int {
    if IsSharp(c) then 1 else if IsFlat(c) then -1 else 0
  }

  /** The total adjustment made by the accidentals, applied left to right. */
  function Offset(accidentals: string): int {
    if accidentals == [] then 0
    else Offset(accidentals[..|accidentals| - 1]) + Step(accidentals[|accidentals| - 1])
  }

  /** JavaScript's `%`: the remainder has the sign of the dividend. */
  function JsRem(a: int, n: int): int
    requires n > 0
  {
    if a >= 0 then a % n else -((-a) % n)
  }

  /** `((p % 12) + 12) % 12` evaluated with JavaScript's `%`. */
  function Normalise(p: int): (r: int)
    ensures 0 <= r < 12
  {
    JsRem(JsRem(p, 12) + 12, 12)
  }

  /**
   * The value `noteToPitchClass` returns, with the final normalisation
   * written as the Euclidean `% 12` it amounts to (NormaliseIsMod).
   */
  function PitchClass(note: string): (r: int)
    ensures r == -1 <==> note == [] || !IsNoteLetter(ToUpper(note[0]))
    ensures r != -1 ==> 0 <= r < 12
  {
    if note == [] then -1
    else match BaseValue(ToUpper(note[0]))
      case None => -1
      case Some(base) => (base + Offset(note[1..])) % 12
  }

  /** `noteToPitchClass`: the base value, adjusted once per accidental in a loop. */
  method NoteToPitchClass(note: string) returns (pitchClass: int)
    ensures pitchClass == PitchClass(note)
  {
    if note == [] {
      return -1;
    }
    var base := BaseValue(ToUpper(note[0]));
    if base.None? {
      return -1;
    }
    var accidentals := note[1..];
    pitchClass := base.value;
    var i := 0;
    while i < |accidentals|
      invariant 0 <= i <= |accidentals|
      invariant pitchClass == base.value + Offset(accidentals[..i])
    {
      var c := accidentals[i];
      if c == '#' || c == SharpSign {
        pitchClass := pitchClass + 1;
      } else if c == 'b' || c == FlatSign {
        pitchClass := pitchClass - 1;
      }
      assert accidentals[..i + 1][..i] == accidentals[..i];
      i := i + 1;
    }
    assert accidentals[..i] == accidentals;
    NormaliseIsMod(pitchClass);
    pitchClass := JsRem(JsRem(pitchClass, 12) + 12, 12);
  }

  /** The JavaScript normalisation agrees with Dafny's Euclidean `%`. */
  lemma NormaliseIsMod(p: int)
    ensures Normalise(p) == p % 12
    ensures 0 <= Normalise(p) < 12
  {
  }

  function CountSharps(s: string): nat {
    if s == [] then 0 else (if IsSharp(s[0]) then 1 else 0) + CountSharps(s[1..])
  }

  function CountFlats(s: string): nat {
    if s == [] then 0 else (if IsFlat(s[0]) then 1 else 0) + CountFlats(s[1..])
  }

  lemma {:induction false} CountsOfAppend(a: string, c: char)
    ensures CountSharps(a + [c]) == CountSharps(a) + (if IsSharp(c) then 1 else 0)
    ensures CountFlats(a + [c]) == CountFlats(a) + (if IsFlat(c) then 1 else 0)
  {
    if a != [] {
      assert (a + [c])[1..] == a[1..] + [c];
      CountsOfAppend(a[1..], c);
    }
  }

  /** The accidentals only count: sharps raise, flats lower, order is irrelevant. */
  lemma {:induction false} OffsetIsCount(s: string)
    ensures Offset(s) == CountSharps(s) - CountFlats(s)
  {
    if s != [] {
      var init := s[..|s| - 1];
      OffsetIsCount(init);
      assert s == init + [s[|s| - 1]];
      CountsOfAppend(init, s[|s| - 1]);
    }
  }

  /**
   * A valid note's pitch class is its base value plus the number of sharps
   * minus the number of flats, reduced mod 12; other characters are ignored.
   */
  lemma PitchClassByCounts(note: string)
    requires PitchClass(note) != -1
    ensures PitchClass(note)
      == (BaseValue(ToUpper(note[0])).value + CountSharps(note[1..]) - CountFlats(note[1..])) % 12
  {
    OffsetIsCount(note[1..]);
  }

  /**
   * Two spellings with the same letter (in either case) and the same balance
   * of sharps over flats name the same pitch class, whichever glyphs they use.
   */
  lemma SameBalanceSamePitchClass(a: string, b: string)
    requires a != [] && b != [] && ToUpper(a[0]) == ToUpper(b[0])
    requires CountSharps(a[1..]) - CountFlats(a[1..]) == CountSharps(b[1..]) - CountFlats(b[1..])
    ensures PitchClass(a) == PitchClass(b)
  {
    if PitchClass(a) != -1 {
      PitchClassByCounts(a);
      PitchClassByCounts(b);
    }
  }

  /** Enharmonic spellings: C# = Db = c♯ and E# = F. */
  lemma EnharmonicExamples()
    ensures PitchClass("C#") == 1 && PitchClass("Db") == 1 && PitchClass("c\U{266F}") == 1
    ensures PitchClass("E#") == PitchClass("F") == 5
  {
  }

  /** Cbb = Bb = B♭; characters that are not accidentals are ignored; `H` and "" are invalid. */
  lemma SpellingExamples()
    ensures PitchClass("Cbb") == 10 && PitchClass("Bb") == 10 && PitchClass("B\U{266D}") == 10
    ensures PitchClass("Cx") == 0
    ensures PitchClass("H") == -1 && PitchClass("") == -1
  {
  }
}
