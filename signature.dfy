/**
 * `getNoteSignature` of utils/musicTheory.ts: the pitch classes of a list of
 * notes with invalid notes dropped, duplicates removed and the rest sorted
 * ascending. The source joins the numbers with commas; joining distinct
 * sorted numbers is injective, so the list itself stands for that string.
 */
module NoteSignatures {
  import opened PitchClasses

  predicate StrictlyIncreasing(s: seq<int>) {
    forall i, j :: 0 <= i < j < |s| ==> s[i] < s[j]
  }

  predicate NoDuplicates(s: seq<int>) {
    forall i, j :: 0 <= i < j < |s| ==> s[i] != s[j]
  }

  /** The pitch classes of the valid notes of `notes`, as a set. */
  ghost function ValidPitchClasses(notes: seq<string>): set<int> {
    set i | 0 <= i < |notes| && PitchClass(notes[i]) != -1 :: PitchClass(notes[i])
  }

  /** `notes.map(noteToPitchClass)` */
  function PitchClassesOf(notes: seq<string>): seq<int> {
    seq(|notes|, i requires 0 <= i < |notes| => PitchClass(notes[i]))
  }

  /** `.filter(pc => pc !== -1)` */
  function DropInvalid(pcs: seq<int>): (r: seq<int>)
    ensures forall x :: x in r <==> x in pcs && x != -1
  {
    if pcs == [] then []
    else (if pcs[0] == -1 then [] else [pcs[0]]) + DropInvalid(pcs[1..])
  }

  /** `[...new Set(xs)]`: the first occurrence of every value, in order. */
  function Dedupe(xs: seq<int>): (r: seq<int>)
    ensures forall x :: x in r <==> x in xs
    ensures NoDuplicates(r)
  {
    if xs == [] then []
    else
      var init := Dedupe(xs[..|xs| - 1]);
      var last := xs[|xs| - 1];
      assert xs == xs[..|xs| - 1] + [last];
      if last in xs[..|xs| - 1] then init else init + [last]
  }

  lemma HeadBelowTail(s: seq<int>)
    requires StrictlyIncreasing(s) && s != []
    ensures forall y :: y in s[1..] ==> s[0] < y
  {
    forall y | y in s[1..]
      ensures s[0] < y
    {
      var k :| 0 <= k < |s[1..]| && s[1..][k] == y;
      assert s[k + 1] == y;
    }
  }

  lemma ConsIncreasing(h: int, t: seq<int>)
    requires StrictlyIncreasing(t)
    requires forall y :: y in t ==> h < y
    ensures StrictlyIncreasing([h] + t)
  {
    forall i, j | 0 <= i < j < |[h] + t|
      ensures ([h] + t)[i] < ([h] + t)[j]
    {
      if i == 0 {
        assert ([h] + t)[j] == t[j - 1];
        assert t[j - 1] in t;
      } else {
        assert ([h] + t)[i] == t[i - 1] && ([h] + t)[j] == t[j - 1];
      }
    }
  }

  function Insert(x: int, s: seq<int>): (r: seq<int>)
    requires StrictlyIncreasing(s) && x !in s
    ensures StrictlyIncreasing(r)
    ensures multiset(r) == multiset(s) + multiset{x}
  {
    if s == [] then [x]
    else if x < s[0] then
      HeadBelowTail(s);
      ConsIncreasing(x, s);
      [x] + s
    else
      TailOfIncreasing(s, x);
      var t := Insert(x, s[1..]);
      InsertAfterHead(x, s, t);
      [s[0]] + t
  }

  /** The tail of an increasing list is increasing and still lacks what the list lacks. */
  lemma TailOfIncreasing(s: seq<int>, x: int)
    requires StrictlyIncreasing(s) && s != [] && x !in s
    ensures StrictlyIncreasing(s[1..]) && x !in s[1..]
  {
    assert s == [s[0]] + s[1..];
  }

  /** Inserting above the head: the head stays in front of the tail with `x` inserted. */
  lemma InsertAfterHead(x: int, s: seq<int>, t: seq<int>)
    requires StrictlyIncreasing(s) && s != [] && s[0] < x
    requires StrictlyIncreasing(t) && multiset(t) == multiset(s[1..]) + multiset{x}
    ensures StrictlyIncreasing([s[0]] + t)
    ensures multiset([s[0]] + t) == multiset(s) + multiset{x}
  {
    assert s == [s[0]] + s[1..];
    HeadBelowTail(s);
    forall y | y in t
      ensures s[0] < y
    {
      assert y in multiset(t);
      assert y == x || y in s[1..];
    }
    ConsIncreasing(s[0], t);
  }

  /** `.sort((a, b) => a - b)` on the de-duplicated list: insertion sort. */
  function SortAscending(xs: seq<int>): (r: seq<int>)
    requires NoDuplicates(xs)
    ensures StrictlyIncreasing(r)
    ensures multiset(r) == multiset(xs)
  {
    if xs == [] then []
    else
      assert xs == [xs[0]] + xs[1..];
      assert NoDuplicates(xs[1..]);
      var rest := SortAscending(xs[1..]);
      assert xs[0] !in xs[1..];
      assert xs[0] !in multiset(rest);
      Insert(xs[0], rest)
  }

  /** `getNoteSignature`, with the joined string left as the list it joins. */
  function GetNoteSignature(notes: seq<string>): seq<int> {
    SortAscending(Dedupe(DropInvalid(PitchClassesOf(notes))))
  }

  lemma ValidPitchClassesOf(notes: seq<string>)
    ensures forall x :: x in ValidPitchClasses(notes) <==> x in PitchClassesOf(notes) && x != -1
  {
    var pcs := PitchClassesOf(notes);
    forall x | x in pcs && x != -1
      ensures x in ValidPitchClasses(notes)
    {
      var i :| 0 <= i < |pcs| && pcs[i] == x;
      assert PitchClass(notes[i]) == x;
    }
    forall x | x in ValidPitchClasses(notes)
      ensures x in pcs
    {
      var i :| 0 <= i < |notes| && PitchClass(notes[i]) != -1 && PitchClass(notes[i]) == x;
      assert pcs[i] == x;
    }
  }

  /**
   * The signature lists every valid pitch class of the notes once, in
   * strictly ascending order, and nothing else.
   */
  lemma SignatureSpec(notes: seq<string>)
    ensures StrictlyIncreasing(GetNoteSignature(notes))
    ensures forall x :: x in GetNoteSignature(notes) <==> x in ValidPitchClasses(notes)
    ensures forall x :: x in GetNoteSignature(notes) ==> 0 <= x < 12
  {
    var pcs := PitchClassesOf(notes);
    var unique := Dedupe(DropInvalid(pcs));
    var r := GetNoteSignature(notes);
    assert forall x :: x in r <==> x in unique by {
      forall x
        ensures x in r <==> x in unique
      {
        assert x in r <==> x in multiset(r);
      }
    }
    ValidPitchClassesOf(notes);
    forall x | x in pcs && x != -1
      ensures 0 <= x < 12
    {
      var i :| 0 <= i < |pcs| && pcs[i] == x;
    }
  }

  /** Two strictly increasing lists with the same elements are equal. */
  lemma {:induction false} StrictlyIncreasingUnique(a: seq<int>, b: seq<int>)
    requires StrictlyIncreasing(a) && StrictlyIncreasing(b)
    requires forall x :: x in a <==> x in b
    ensures a == b
  {
    if a != [] {
      assert a[0] in a;
    }
    if b != [] {
      assert b[0] in b;
    }
    if a != [] && b != [] {
      assert a[0] == b[0] by {
        assert a[0] in b && b[0] in a;
      }
      forall x
        ensures x in a[1..] <==> x in b[1..]
      {
        if x in a[1..] {
          assert x in b && x != b[0];
        }
        if x in b[1..] {
          assert x in a && x != a[0];
        }
      }
      StrictlyIncreasingUnique(a[1..], b[1..]);
      assert a == [a[0]] + a[1..] && b == [b[0]] + b[1..];
    }
  }

  /** The signature depends only on the set of valid pitch classes. */
  lemma SignatureOfSameSet(a: seq<string>, b: seq<string>)
    requires ValidPitchClasses(a) == ValidPitchClasses(b)
    ensures GetNoteSignature(a) == GetNoteSignature(b)
  {
    SignatureSpec(a);
    SignatureSpec(b);
    StrictlyIncreasingUnique(GetNoteSignature(a), GetNoteSignature(b));
  }

  /** Reordering the notes or repeating some of them leaves the signature unchanged. */
  lemma SignatureIgnoresOrderAndDuplicates(a: seq<string>, b: seq<string>)
    requires forall n :: n in a <==> n in b
    ensures GetNoteSignature(a) == GetNoteSignature(b)
  {
    forall x | x in ValidPitchClasses(a)
      ensures x in ValidPitchClasses(b)
    {
      var i :| 0 <= i < |a| && PitchClass(a[i]) != -1 && PitchClass(a[i]) == x;
      assert a[i] in a;
      var j :| 0 <= j < |b| && b[j] == a[i];
    }
    forall x | x in ValidPitchClasses(b)
      ensures x in ValidPitchClasses(a)
    {
      var j :| 0 <= j < |b| && PitchClass(b[j]) != -1 && PitchClass(b[j]) == x;
      assert b[j] in b;
      var i :| 0 <= i < |a| && a[i] == b[j];
    }
    SignatureOfSameSet(a, b);
  }
}
