/**
 * The note tokenizer of `findChordAndKeyFromNotes`: the global match of the
 * regular expression `[A-G][#b♯♭]*` (flag `g`), written out as a scanner. A
 * token starts at every upper-case letter A to G and takes the longest run
 * of accidentals after it; every other character is skipped.
 */
module NoteTokens {
  import opened PitchClasses

  /** `[A-G]`: the regular expression is case-sensitive. */
  predicate IsTokenLetter(c: char) { 'A' <= c <= 'G' }

  /** `[#b♯♭]` */
  predicate IsTokenAccidental(c: char) { c == '#' || c == 'b' || c == SharpSign || c == FlatSign }

  /** A string the regular expression matches as a whole. */
  predicate IsToken(t: string) {
    |t| >= 1 && IsTokenLetter(t[0]) && forall k :: 1 <= k < |t| ==> IsTokenAccidental(t[k])
  }

  /** The length of the longest accidental prefix of `s` (the greedy `*`). */
  function AccidentalSpan(s: string): (n: nat)
    ensures n <= |s|
    ensures forall k :: 0 <= k < n ==> IsTokenAccidental(s[k])
    ensures n < |s| ==> !IsTokenAccidental(s[n])
  {
    if s != [] && IsTokenAccidental(s[0]) then 1 + AccidentalSpan(s[1..]) else 0
  }

  /** `noteInput.match(noteRegex)`, with no match written as the empty list. */
  function MatchNotes(s: string): (tokens: seq<string>)
    ensures forall i :: 0 <= i < |tokens| ==> IsToken(tokens[i])
  {
    if s == [] then []
    else if IsTokenLetter(s[0]) then
      var n := 1 + AccidentalSpan(s[1..]);
      [s[..n]] + MatchNotes(s[n..])
    else MatchNotes(s[1..])
  }

  /** The note letters of `s`, in order. */
  function Letters(s: string): string {
    if s == [] then []
    else (if IsTokenLetter(s[0]) then [s[0]] else []) + Letters(s[1..])
  }

  /** The first character of every token. */
  function Heads(tokens: seq<string>): string
    requires forall i :: 0 <= i < |tokens| ==> tokens[i] != []
  {
    seq(|tokens|, i requires 0 <= i < |tokens| => tokens[i][0])
  }

  /** Accidentals are not note letters, so skipping a run of them keeps the letters. */
  lemma {:induction false} LettersSkipAccidentals(s: string, n: nat)
    requires n <= |s|
    requires forall k :: 0 <= k < n ==> IsTokenAccidental(s[k])
    ensures Letters(s) == Letters(s[n..])
  {
    if n > 0 {
      assert s[1..][n - 1..] == s[n..];
      LettersSkipAccidentals(s[1..], n - 1);
    }
  }

  /**
   * There is one token per note letter of the input, in order, each
   * starting with its letter.
   */
  lemma {:induction false} TokensFollowLetters(s: string)
    ensures Heads(MatchNotes(s)) == Letters(s)
  {
    if s != [] {
      if IsTokenLetter(s[0]) {
        var n := 1 + AccidentalSpan(s[1..]);
        var rest := MatchNotes(s[n..]);
        TokensFollowLetters(s[n..]);
        LettersSkipAccidentals(s[1..], n - 1);
        assert s[1..][n - 1..] == s[n..];
        HeadsCons(s[..n], rest);
      } else {
        TokensFollowLetters(s[1..]);
      }
    }
  }

  lemma HeadsCons(t: string, tokens: seq<string>)
    requires t != [] && forall i :: 0 <= i < |tokens| ==> tokens[i] != []
    ensures Heads([t] + tokens) == [t[0]] + Heads(tokens)
  {
  }

  /** The tokenizer finds nothing exactly when the input has no note letter. */
  lemma NoTokensIffNoLetters(s: string)
    ensures MatchNotes(s) == [] <==> forall k :: 0 <= k < |s| ==> !IsTokenLetter(s[k])
  {
    TokensFollowLetters(s);
    NoLettersIffEmpty(s);
  }

  lemma {:induction false} NoLettersIffEmpty(s: string)
    ensures Letters(s) == [] <==> forall k :: 0 <= k < |s| ==> !IsTokenLetter(s[k])
  {
    if s != [] {
      NoLettersIffEmpty(s[1..]);
      assert forall k :: 1 <= k < |s| ==> s[k] == s[1..][k - 1];
    }
  }

  /** The positions of the note letters of `s` from `i` on, in increasing order. */
  function LetterPositionsFrom(s: string, i: nat): seq<nat>
    requires i <= |s|
    decreases |s| - i
  {
    if i == |s| then []
    else (if IsTokenLetter(s[i]) then [i] else []) + LetterPositionsFrom(s, i + 1)
  }

  /** The positions listed are exactly the note letters from `i` on, in increasing order. */
  lemma LetterPositionsSpec(s: string, i: nat)
    requires i <= |s|
    ensures forall j :: 0 <= j < |LetterPositionsFrom(s, i)| ==>
      i <= LetterPositionsFrom(s, i)[j] < |s| && IsTokenLetter(s[LetterPositionsFrom(s, i)[j]])
    ensures forall j, k :: 0 <= j < k < |LetterPositionsFrom(s, i)| ==>
      LetterPositionsFrom(s, i)[j] < LetterPositionsFrom(s, i)[k]
    ensures forall q :: i <= q < |s| ==> (IsTokenLetter(s[q]) <==> q in LetterPositionsFrom(s, i))
  {
    PositionsAreLetters(s, i);
    PositionsIncrease(s, i);
    LettersAreListed(s, i);
  }

  lemma {:induction false} PositionsAreLetters(s: string, i: nat)
    requires i <= |s|
    ensures forall j :: 0 <= j < |LetterPositionsFrom(s, i)| ==>
      i <= LetterPositionsFrom(s, i)[j] < |s| && IsTokenLetter(s[LetterPositionsFrom(s, i)[j]])
    decreases |s| - i
  {
    if i < |s| {
      PositionsAreLetters(s, i + 1);
      var ps := LetterPositionsFrom(s, i);
      var rest := LetterPositionsFrom(s, i + 1);
      if IsTokenLetter(s[i]) {
        assert ps == [i] + rest;
        assert forall j :: 1 <= j < |ps| ==> ps[j] == rest[j - 1];
      }
    }
  }

  lemma {:induction false} PositionsIncrease(s: string, i: nat)
    requires i <= |s|
    ensures forall j, k :: 0 <= j < k < |LetterPositionsFrom(s, i)| ==>
      LetterPositionsFrom(s, i)[j] < LetterPositionsFrom(s, i)[k]
    decreases |s| - i
  {
    if i < |s| {
      PositionsIncrease(s, i + 1);
      PositionsAreLetters(s, i + 1);
      var ps := LetterPositionsFrom(s, i);
      var rest := LetterPositionsFrom(s, i + 1);
      if IsTokenLetter(s[i]) {
        assert ps == [i] + rest;
        assert forall j :: 1 <= j < |ps| ==> ps[j] == rest[j - 1];
      }
    }
  }

  lemma {:induction false} LettersAreListed(s: string, i: nat)
    requires i <= |s|
    ensures forall q :: i <= q < |s| ==> (IsTokenLetter(s[q]) <==> q in LetterPositionsFrom(s, i))
    decreases |s| - i
  {
    if i < |s| {
      LettersAreListed(s, i + 1);
      PositionsAreLetters(s, i + 1);
      var ps := LetterPositionsFrom(s, i);
      var rest := LetterPositionsFrom(s, i + 1);
      if IsTokenLetter(s[i]) {
        assert ps == [i] + rest;
      } else {
        assert ps == rest;
      }
    }
  }

  /** Characters that are not note letters contribute no position. */
  lemma {:induction false} PositionsSkipNonLetters(s: string, i: nat, m: nat)
    requires i <= m <= |s|
    requires forall q :: i <= q < m ==> !IsTokenLetter(s[q])
    ensures LetterPositionsFrom(s, i) == LetterPositionsFrom(s, m)
    decreases m - i
  {
    if i < m {
      assert LetterPositionsFrom(s, i) == LetterPositionsFrom(s, i + 1);
      PositionsSkipNonLetters(s, i + 1, m);
    }
  }

  /** The token `MatchNotes` takes at letter position `p`: the letter and the longest accidental run after it. */
  function TokenAt(s: string, p: nat): (t: string)
    requires p < |s|
    ensures IsToken(t) <==> IsTokenLetter(s[p])
    ensures |t| >= 1 && t[0] == s[p]
  {
    s[p..p + 1 + AccidentalSpan(s[p + 1..])]
  }

  /** `tokens` are the tokens taken at the positions `ps` of `s`, one for one. */
  predicate TokensAtPositions(s: string, tokens: seq<string>, ps: seq<nat>) {
    |tokens| == |ps| && forall j :: 0 <= j < |ps| ==> ps[j] < |s| && tokens[j] == TokenAt(s, ps[j])
  }

  /** Matching from a note letter takes its token and goes on after it. */
  lemma MatchAtLetter(s: string, i: nat)
    requires i < |s| && IsTokenLetter(s[i])
    ensures i + 1 + AccidentalSpan(s[i + 1..]) <= |s|
    ensures MatchNotes(s[i..]) == [TokenAt(s, i)] + MatchNotes(s[i + 1 + AccidentalSpan(s[i + 1..])..])
  {
    var t := s[i..];
    var n := 1 + AccidentalSpan(s[i + 1..]);
    assert t[1..] == s[i + 1..];
    assert t[..n] == s[i..i + n];
    assert t[n..] == s[i + n..];
  }

  /** Matching from any other character skips it. */
  lemma MatchAtOther(s: string, i: nat)
    requires i < |s| && !IsTokenLetter(s[i])
    ensures MatchNotes(s[i..]) == MatchNotes(s[i + 1..])
  {
    assert s[i..][1..] == s[i + 1..];
  }

  /** The letter at `i` is followed by no letter until its accidentals end. */
  lemma PositionsAtLetter(s: string, i: nat)
    requires i < |s| && IsTokenLetter(s[i])
    ensures i + 1 + AccidentalSpan(s[i + 1..]) <= |s|
    ensures LetterPositionsFrom(s, i) == [i] + LetterPositionsFrom(s, i + 1 + AccidentalSpan(s[i + 1..]))
  {
    var n := 1 + AccidentalSpan(s[i + 1..]);
    forall q | i + 1 <= q < i + n
      ensures !IsTokenLetter(s[q])
    {
      assert s[q] == s[i + 1..][q - i - 1];
    }
    PositionsSkipNonLetters(s, i + 1, i + n);
  }

  lemma ConsTokenAt(s: string, i: nat, tokens: seq<string>, ps: seq<nat>)
    requires i < |s| && TokensAtPositions(s, tokens, ps)
    ensures TokensAtPositions(s, [TokenAt(s, i)] + tokens, [i] + ps)
  {
    var p2 := [i] + ps;
    var t2 := [TokenAt(s, i)] + tokens;
    forall j | 0 <= j < |p2|
      ensures p2[j] < |s| && t2[j] == TokenAt(s, p2[j])
    {
      if j > 0 {
        assert p2[j] == ps[j - 1] && t2[j] == tokens[j - 1];
      }
    }
  }

  lemma {:induction false} TokensFrom(s: string, i: nat)
    requires i <= |s|
    ensures TokensAtPositions(s, MatchNotes(s[i..]), LetterPositionsFrom(s, i))
    decreases |s| - i
  {
    if i < |s| {
      if IsTokenLetter(s[i]) {
        var n := 1 + AccidentalSpan(s[i + 1..]);
        MatchAtLetter(s, i);
        PositionsAtLetter(s, i);
        TokensFrom(s, i + n);
        ConsTokenAt(s, i, MatchNotes(s[i + n..]), LetterPositionsFrom(s, i + n));
      } else {
        MatchAtOther(s, i);
        TokensFrom(s, i + 1);
      }
    }
  }

  /**
   * The global match in full: token `j` begins at the `j`-th note letter of
   * the input and takes the longest run of accidentals after it, for any
   * input, whatever separates the notes.
   */
  lemma TokensAreLongestMatches(s: string)
    ensures |MatchNotes(s)| == |LetterPositionsFrom(s, 0)|
    ensures forall j :: 0 <= j < |MatchNotes(s)| ==>
      LetterPositionsFrom(s, 0)[j] < |s| && MatchNotes(s)[j] == TokenAt(s, LetterPositionsFrom(s, 0)[j])
  {
    TokensFrom(s, 0);
    assert s[0..] == s;
  }

  /** Every token is a note `noteToPitchClass` accepts. */
  lemma TokensAreNotes(s: string)
    ensures forall i :: 0 <= i < |MatchNotes(s)| ==> PitchClass(MatchNotes(s)[i]) != -1
  {
  }

  /** `notes.join(' ')` */
  function JoinWithSpaces(notes: seq<string>): string {
    if notes == [] then []
    else if |notes| == 1 then notes[0]
    else notes[0] + " " + JoinWithSpaces(notes[1..])
  }

  /** A whole token followed by a non-accidental is read back as that token. */
  lemma TokenThenRest(t: string, rest: string)
    requires IsToken(t)
    requires rest == [] || !IsTokenAccidental(rest[0])
    ensures MatchNotes(t + rest) == [t] + MatchNotes(rest)
  {
    var s := t + rest;
    SpanOfAccidentals(t[1..], rest);
    assert s[1..] == t[1..] + rest;
    assert s[..|t|] == t;
    assert s[|t|..] == rest;
  }

  lemma {:induction false} SpanOfAccidentals(acc: string, rest: string)
    requires forall k :: 0 <= k < |acc| ==> IsTokenAccidental(acc[k])
    requires rest == [] || !IsTokenAccidental(rest[0])
    ensures AccidentalSpan(acc + rest) == |acc|
  {
    if acc != [] {
      assert (acc + rest)[1..] == acc[1..] + rest;
      SpanOfAccidentals(acc[1..], rest);
    }
  }

  /** Joining tokens with spaces and tokenizing gives the tokens back. */
  lemma {:induction false} TokensRoundTrip(notes: seq<string>)
    requires forall i :: 0 <= i < |notes| ==> IsToken(notes[i])
    ensures MatchNotes(JoinWithSpaces(notes)) == notes
  {
    if |notes| == 1 {
      TokenThenRest(notes[0], []);
      assert notes[0] + [] == notes[0];
    } else if |notes| > 1 {
      var rest := JoinWithSpaces(notes[1..]);
      TokensRoundTrip(notes[1..]);
      TokenThenRest(notes[0], " " + rest);
      assert notes[0] + " " + rest == notes[0] + (" " + rest);
      assert (" " + rest)[1..] == rest;
      assert notes == [notes[0]] + notes[1..];
    }
  }
}
