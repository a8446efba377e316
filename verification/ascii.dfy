/**
 Python's `str.lower` and `str.title`, restricted to ASCII letters.

 Python lowers every upper-case letter and leaves every other character alone.
 `str.title` walks the string keeping one bit of state, whether the previous
 character was cased: a letter that follows a cased character is lowered, a
 letter that follows an uncased one (or starts the string) is raised, and any
 other character is copied and clears the bit. Over ASCII the cased characters
 are exactly the letters, so digits, spaces and punctuation all start a new word.
 */
module Ascii {

  predicate IsUpper(c: char) { 'A' <= c <= 'Z' }

  predicate IsLower(c: char) { 'a' <= c <= 'z' }

  /** A cased character in the sense of `str.title`. */
  predicate IsLetter(c: char) { IsUpper(c) || IsLower(c) }

  function LowerChar(c: char): (d: char)
    ensures IsLetter(d) <==> IsLetter(c)
    ensures !IsUpper(d)
    ensures IsLower(c) || !IsLetter(c) ==> d == c
  {
    if IsUpper(c) then (c as int + 32) as char else c
  }

  function UpperChar(c: char): (d: char)
    ensures IsLetter(d) <==> IsLetter(c)
    ensures !IsLower(d)
    ensures IsUpper(c) || !IsLetter(c) ==> d == c
  {
    if IsLower(c) then (c as int - 32) as char else c
  }

  /** Lowering a raised letter gives back its lower-case form. */
  lemma LowerUpperChar(c: char)
    ensures LowerChar(UpperChar(c)) == LowerChar(c)
  {
  }

  /** A string with no upper-case letter, i.e. one that `Lower` leaves unchanged. */
  predicate IsLowerCase(s: string)
  {
    forall i :: 0 <= i < |s| ==> !IsUpper(s[i])
  }

  /** `str.lower` over ASCII. */
  function Lower(s: string): (r: string)
    ensures |r| == |s|
    ensures forall i :: 0 <= i < |s| ==> r[i] == LowerChar(s[i])
    ensures IsLowerCase(r)
  {
    if |s| == 0 then "" else [LowerChar(s[0])] + Lower(s[1..])
  }

  /** Lowering is idempotent, and it fixes exactly the strings without capitals. */
  lemma LowerIdempotent(s: string)
    ensures Lower(Lower(s)) == Lower(s)
    ensures Lower(s) == s <==> IsLowerCase(s)
  {
    if IsLowerCase(s) {
      assert forall i :: 0 <= i < |s| ==> Lower(s)[i] == s[i];
    }
  }

  /** The character `str.title` puts at position `i` of `s`, read off the input directly. */
  function TitleCharAt(s: string, i: nat, startCased: bool): char
    requires i < |s|
  {
    var prevCased := if i == 0 then startCased else IsLetter(s[i - 1]);
    if !IsLetter(s[i]) then s[i]
    else if prevCased then LowerChar(s[i])
    else UpperChar(s[i])
  }

  /** The left-to-right walk of `str.title`, starting with the given "previous was cased" bit. */
  function TitleFrom(s: string, prevCased: bool): (t: string)
    ensures |t| == |s|
    ensures forall i :: 0 <= i < |s| ==> t[i] == TitleCharAt(s, i, prevCased)
  {
    if |s| == 0 then ""
    else
      var c := s[0];
      var c' := if !IsLetter(c) then c else if prevCased then LowerChar(c) else UpperChar(c);
      [c'] + TitleFrom(s[1..], IsLetter(c))
  }

  /** `str.title` over ASCII. */
  function Title(s: string): (t: string)
    ensures |t| == |s|
    ensures forall i :: 0 <= i < |s| ==> t[i] == TitleCharAt(s, i, false)
  {
    TitleFrom(s, false)
  }

  /** Title-casing ignores the case the input was written in. */
  lemma TitleIgnoresCase(s: string)
    ensures Title(Lower(s)) == Title(s)
  {
    var a, b := Title(Lower(s)), Title(s);
    forall i | 0 <= i < |s|
      ensures a[i] == b[i]
    {
      LowerUpperChar(s[i]);
    }
  }

  /** Lowering a title-cased string recovers the lowered original. */
  lemma LowerTitle(s: string)
    ensures Lower(Title(s)) == Lower(s)
  {
    var a, b := Lower(Title(s)), Lower(s);
    forall i | 0 <= i < |s|
      ensures a[i] == b[i]
    {
      LowerUpperChar(s[i]);
    }
  }

  /** Title-casing only changes letters: every other character is kept in place. */
  lemma TitleKeepsNonLetters(s: string, c: char)
    requires !IsLetter(c)
    ensures c in Title(s) <==> c in s
  {
    var t := Title(s);
    if c in s {
      var i :| 0 <= i < |s| && s[i] == c;
      assert t[i] == c;
    }
    if c in t {
      var i :| 0 <= i < |t| && t[i] == c;
      assert s[i] == c;
    }
  }

  /** `str.title` raises the first letter of every word and lowers the rest. */
  lemma TitleWords(s: string, i: nat)
    requires i < |s| && IsLetter(s[i])
    ensures IsUpper(Title(s)[i]) <==> i == 0 || !IsLetter(s[i - 1])
    ensures LowerChar(Title(s)[i]) == LowerChar(s[i])
  {
    LowerUpperChar(s[i]);
  }
}
