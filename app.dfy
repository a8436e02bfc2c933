/**
 * The state of the App component of App.tsx: the selected circle position
 * and the last search result, and the three handlers that change them. The
 * React hooks become the fields of a class; each handler is a method.
 */
module AppState {
  import opened Wrappers
  import opened PitchClasses
  import opened Constants
  import opened Search
  import opened SearchFacts

  /** The `chord` part of a search result: a root and a library definition. */
  datatype ChordRef = ChordRef(root: string, definition: ChordDefinition)

  /** The `SearchResult` of types.ts: a message, and optionally a chord and a key. */
  datatype SearchResult = SearchResult(message: string, chord: Option<ChordRef>, key: Option<string>)

  const FoundInKeyMessage: string := "Found chord in the key of"
  const NonDiatonicMessage: string := "Found a non-diatonic chord"
  const NotFoundMessage: string := "No matching chord found for the entered notes."

  /**
   * The characters `String.prototype.trim` removes: the white space and
   * line terminators of ECMAScript (tab, line feed, vertical tab, form
   * feed, carriage return, space, no-break space, the Unicode space
   * separators, line and paragraph separator, byte order mark).
   */
  predicate IsJsWhitespace(c: char) {
    ('\U{0009}' <= c <= '\U{000D}') || c == ' ' || c == '\U{00A0}' || c == '\U{1680}' ||
    ('\U{2000}' <= c <= '\U{200A}') || c == '\U{2028}' || c == '\U{2029}' || c == '\U{202F}' ||
    c == '\U{205F}' || c == '\U{3000}' || c == '\U{FEFF}'
  }

  function TrimStart(s: string): (r: string)
    ensures |r| <= |s| && r == s[|s| - |r|..]
    ensures r != [] ==> !IsJsWhitespace(r[0])
  {
    if s != [] && IsJsWhitespace(s[0]) then TrimStart(s[1..]) else s
  }

  function TrimEnd(s: string): (r: string)
    ensures |r| <= |s| && r == s[..|r|]
    ensures r != [] ==> !IsJsWhitespace(r[|r| - 1])
  {
    if s != [] && IsJsWhitespace(s[|s| - 1]) then TrimEnd(s[..|s| - 1]) else s
  }

  /** `s.trim()` */
  function Trim(s: string): string {
    TrimEnd(TrimStart(s))
  }

  /**
   * `trim()` keeps one contiguous part of `s` that neither starts nor ends
   * with white space, and everything it removes around it is white space.
   */
  lemma TrimSpec(s: string)
    ensures Trim(s) != [] ==> !IsJsWhitespace(Trim(s)[0]) && !IsJsWhitespace(Trim(s)[|Trim(s)| - 1])
    ensures var i := |s| - |TrimStart(s)|;
      0 <= i <= |s| - |Trim(s)| && s[i..i + |Trim(s)|] == Trim(s) &&
      (forall k :: 0 <= k < i ==> IsJsWhitespace(s[k])) &&
      (forall k :: i + |Trim(s)| <= k < |s| ==> IsJsWhitespace(s[k]))
  {
    TrimEndsAreNotBlank(s);
    TrimRemovesBlanks(s);
  }

  lemma TrimEndsAreNotBlank(s: string)
    ensures Trim(s) != [] ==> !IsJsWhitespace(Trim(s)[0]) && !IsJsWhitespace(Trim(s)[|Trim(s)| - 1])
  {
    var t := TrimStart(s);
    var r := TrimEnd(t);
    if r != [] {
      assert r == t[..|r|];
      assert r[0] == t[0];
    }
  }

  lemma TrimRemovesBlanks(s: string)
    ensures var i := |s| - |TrimStart(s)|;
      0 <= i <= |s| - |Trim(s)| && s[i..i + |Trim(s)|] == Trim(s) &&
      (forall k :: 0 <= k < i ==> IsJsWhitespace(s[k])) &&
      (forall k :: i + |Trim(s)| <= k < |s| ==> IsJsWhitespace(s[k]))
  {
    TrimKeepsMiddle(s);
    TrimStartRemovesBlanks(s);
    TrimDropsTrailingBlanks(s);
  }

  lemma TrimKeepsMiddle(s: string)
    ensures var i := |s| - |TrimStart(s)|;
      0 <= i <= |s| - |Trim(s)| && s[i..i + |Trim(s)|] == Trim(s)
  {
    var t := TrimStart(s);
    var r := TrimEnd(t);
    var i := |s| - |t|;
    assert t == s[i..];
    assert r == t[..|r|];
  }

  lemma TrimDropsTrailingBlanks(s: string)
    ensures forall k :: |s| - |TrimStart(s)| + |Trim(s)| <= k < |s| ==> IsJsWhitespace(s[k])
  {
    var t := TrimStart(s);
    var r := TrimEnd(t);
    var i := |s| - |t|;
    TrimEndRemovesBlanks(t);
    assert t == s[i..];
    forall k | i + |r| <= k < |s|
      ensures IsJsWhitespace(s[k])
    {
      assert s[k] == t[k - i];
    }
  }

  lemma {:induction false} TrimStartRemovesBlanks(s: string)
    ensures forall k :: 0 <= k < |s| - |TrimStart(s)| ==> IsJsWhitespace(s[k])
  {
    if s != [] && IsJsWhitespace(s[0]) {
      TrimStartRemovesBlanks(s[1..]);
      forall k | 1 <= k < |s| - |TrimStart(s)|
        ensures IsJsWhitespace(s[k])
      {
        assert s[k] == s[1..][k - 1];
      }
    }
  }

  lemma {:induction false} TrimEndRemovesBlanks(s: string)
    ensures forall k :: |TrimEnd(s)| <= k < |s| ==> IsJsWhitespace(s[k])
  {
    if s != [] && IsJsWhitespace(s[|s| - 1]) {
      TrimEndRemovesBlanks(s[..|s| - 1]);
      forall k | |TrimEnd(s)| <= k < |s| - 1
        ensures IsJsWhitespace(s[k])
      {
        assert s[k] == s[..|s| - 1][k];
      }
    }
  }

  /** An all-blank string trims to the empty string, and nothing else does. */
  lemma TrimEmptyIffBlank(s: string)
    ensures Trim(s) == [] <==> forall k :: 0 <= k < |s| ==> IsJsWhitespace(s[k])
  {
    TrimStartBlank(s);
    TrimEndBlank(TrimStart(s));
  }

  lemma {:induction false} TrimStartBlank(s: string)
    ensures TrimStart(s) == [] <==> forall k :: 0 <= k < |s| ==> IsJsWhitespace(s[k])
    ensures TrimStart(s) != [] ==> !IsJsWhitespace(TrimStart(s)[0])
  {
    if s != [] && IsJsWhitespace(s[0]) {
      TrimStartBlank(s[1..]);
      assert forall k :: 1 <= k < |s| ==> s[k] == s[1..][k - 1];
    }
  }

  lemma {:induction false} TrimEndBlank(s: string)
    requires s != [] ==> !IsJsWhitespace(s[0])
    ensures TrimEnd(s) == [] <==> s == []
  {
    if s != [] && IsJsWhitespace(s[|s| - 1]) {
      assert |s| > 1;
      TrimEndBlank(s[..|s| - 1]);
    }
  }

  /** `(prevIndex + 1) % POSITIONAL_DATA.length`, with JavaScript's `%`. */
  function NextIndex(i: int): (r: int)
    ensures i + 1 >= 0 ==> 0 <= r < |PositionalData|
    ensures i + 1 < 0 ==> -|PositionalData| < r <= 0
  {
    JsRem(i + 1, |PositionalData|)
  }

  /** `(prevIndex - 1 + POSITIONAL_DATA.length) % POSITIONAL_DATA.length` */
  function PreviousIndex(i: int): (r: int)
    ensures i - 1 + |PositionalData| >= 0 ==> 0 <= r < |PositionalData|
    ensures i - 1 + |PositionalData| < 0 ==> -|PositionalData| < r <= 0
  {
    JsRem(i - 1 + |PositionalData|, |PositionalData|)
  }

  /**
   * On a circle position, Next and Previous move one step clockwise and
   * counter-clockwise, stay on the circle and undo each other.
   */
  lemma RotationSteps(i: int)
    requires 0 <= i < |PositionalData|
    ensures NextIndex(i) == if i == |PositionalData| - 1 then 0 else i + 1
    ensures PreviousIndex(i) == if i == 0 then |PositionalData| - 1 else i - 1
    ensures 0 <= NextIndex(i) < |PositionalData| && 0 <= PreviousIndex(i) < |PositionalData|
    ensures PreviousIndex(NextIndex(i)) == i && NextIndex(PreviousIndex(i)) == i
  {
    assert |PositionalData| == 12;
  }

  /** A search hit's key is a major of the circle, never the empty (falsy) string. */
  lemma KeysAreNonEmpty(library: seq<ChordCategory>, noteInput: string)
    requires FindChordAndKeyIn(library, noteInput).Some? && FindChordAndKeyIn(library, noteInput).value.key.Some?
    ensures FindChordAndKeyIn(library, noteInput).value.key.value != []
  {
    SearchResolvesKey(library, noteInput);
    MajorsNonEmpty();
  }

  lemma MajorsNonEmpty()
    ensures forall i :: 0 <= i < |PositionalData| ==> PositionalData[i].major != []
  {
  }

  class App {
    /** Which position of the circle of fifths is highlighted. */
    var selectedKeyIndex: int
    /** What the info panel shows about the last search, if anything. */
    var searchResult: Option<SearchResult>

    /** The selected index is always a position of the circle. */
    ghost predicate Valid()
      reads this
    {
      0 <= selectedKeyIndex < |PositionalData|
    }

    /** The initial state: C major selected, no search result. */
    constructor()
      ensures selectedKeyIndex == 0 && searchResult == None
      ensures Valid()
    {
      selectedKeyIndex := 0;
      searchResult := None;
    }

    /** `handlePrevious`: one position counter-clockwise. */
    method HandlePrevious()
      requires Valid()
      modifies this
      ensures selectedKeyIndex == PreviousIndex(old(selectedKeyIndex))
      ensures searchResult == old(searchResult)
      ensures Valid()
    {
      RotationSteps(selectedKeyIndex);
      selectedKeyIndex := JsRem(selectedKeyIndex - 1 + |PositionalData|, |PositionalData|);
    }

    /** `handleNext`: one position clockwise. */
    method HandleNext()
      requires Valid()
      modifies this
      ensures selectedKeyIndex == NextIndex(old(selectedKeyIndex))
      ensures searchResult == old(searchResult)
      ensures Valid()
    {
      RotationSteps(selectedKeyIndex);
      selectedKeyIndex := JsRem(selectedKeyIndex + 1, |PositionalData|);
    }

    /**
     * `handleSearch`: a blank input clears the result; otherwise the search
     * result is filed as a chord in a key, a non-diatonic chord or nothing
     * found, and a found chord moves the selection to its circle position.
     */
    method HandleSearch(notesInput: string)
      requires Valid()
      modifies this
      ensures Trim(notesInput) == [] ==>
        searchResult == None && selectedKeyIndex == old(selectedKeyIndex)
      ensures Trim(notesInput) != [] && FindChordAndKey(notesInput).None? ==>
        searchResult == Some(SearchResult(NotFoundMessage, None, None)) &&
        selectedKeyIndex == old(selectedKeyIndex)
      ensures Trim(notesInput) != [] && FindChordAndKey(notesInput).Some? ==>
        var hit := FindChordAndKey(notesInput).value;
        selectedKeyIndex == hit.keyIndex &&
        searchResult == Some(
          if hit.key.Some? then SearchResult(FoundInKeyMessage, Some(ChordRef(hit.root, hit.definition)), hit.key)
          else SearchResult(NonDiatonicMessage, Some(ChordRef(hit.root, hit.definition)), None))
      ensures Valid()
    {
      if Trim(notesInput) == [] {
        searchResult := None;
        return;
      }
      var result := FindChordAndKeyFromNotes(notesInput);
      if result.Some? {
        SearchResolvesKey(ChordLibrary, notesInput);
        if result.value.key.Some? {
          KeysAreNonEmpty(ChordLibrary, notesInput);
        }
        selectedKeyIndex := result.value.keyIndex;
        if result.value.key.Some? && result.value.key.value != [] {
          searchResult := Some(SearchResult(FoundInKeyMessage,
            Some(ChordRef(result.value.root, result.value.definition)), result.value.key));
        } else {
          searchResult := Some(SearchResult(NonDiatonicMessage,
            Some(ChordRef(result.value.root, result.value.definition)), None));
        }
      } else {
        searchResult := Some(SearchResult(NotFoundMessage, None, None));
      }
    }
  }
}
