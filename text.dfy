/**
 * The string methods the script relies on — str.strip, str.isalpha,
 * str.lower, str.upper and str.title — over ASCII characters.
 */
module Text {

  /** Python's str.isspace on ASCII: space, \t \n \v \f \r and the separators 0x1C-0x1F. */
  predicate IsSpace(c: char) {
    c == ' ' || 9 <= c as int <= 13 || 28 <= c as int <= 31
  }

  predicate IsUpper(c: char) { 'A' <= c <= 'Z' }

  predicate IsLower(c: char) { 'a' <= c <= 'z' }

  /** Python's str.isalpha on one ASCII character; ASCII letters are also exactly the cased characters. */
  predicate IsLetter(c: char) { IsUpper(c) || IsLower(c) }

  function ToLower(c: char): (r: char)
    ensures IsLetter(c) <==> IsLetter(r)
    ensures !IsUpper(r)
  {
    if IsUpper(c) then (c as int + 32) as char else c
  }

  function ToUpper(c: char): (r: char)
    ensures IsLetter(c) <==> IsLetter(r)
    ensures !IsLower(r)
  {
    if IsLower(c) then (c as int - 32) as char else c
  }

  /**
   * str.isalpha(): non-empty and every character a letter. The strings it
   * accepts are the ones that lower-case to a word of lower-case letters.
   */
  predicate IsAlpha(s: string)
    ensures IsAlpha(s) <==> IsLowerWord(Lower(s))
  {
    |s| > 0 && forall i :: 0 <= i < |s| ==> IsLetter(s[i])
  }

  /** A non-empty string of lower-case letters only. */
  predicate IsLowerWord(s: string) {
    |s| > 0 && forall i :: 0 <= i < |s| ==> IsLower(s[i])
  }

  /** str.lower(): no upper-case letter is left, letters stay letters, every other character is kept. */
  function Lower(s: string): (r: string)
    ensures |r| == |s|
    ensures forall i :: 0 <= i < |s| ==> !IsUpper(r[i]) && (IsLetter(r[i]) <==> IsLetter(s[i]))
    ensures forall i :: 0 <= i < |s| && !IsUpper(s[i]) ==> r[i] == s[i]
  {
    seq(|s|, i requires 0 <= i < |s| => ToLower(s[i]))
  }

  /** str.upper(): no lower-case letter is left, letters stay letters, every other character is kept. */
  function Upper(s: string): (r: string)
    ensures |r| == |s|
    ensures forall i :: 0 <= i < |s| ==> !IsLower(r[i]) && (IsLetter(r[i]) <==> IsLetter(s[i]))
    ensures forall i :: 0 <= i < |s| && !IsLower(s[i]) ==> r[i] == s[i]
  {
    seq(|s|, i requires 0 <= i < |s| => ToUpper(s[i]))
  }

  /**
   * str.title() from a given context: a letter becomes upper case when the
   * character before it is not cased, lower case otherwise; every other
   * character is kept. `afterCased` says whether the character before s is cased.
   */
  function TitleAfter(s: string, afterCased: bool): (r: string)
    ensures |r| == |s|
  {
    if s == [] then []
    else
      var c := if !IsLetter(s[0]) then s[0] else if afterCased then ToLower(s[0]) else ToUpper(s[0]);
      [c] + TitleAfter(s[1..], IsLetter(s[0]))
  }

  /** str.title(): only the case of letters changes, and a leading letter is upper-cased. */
  function Title(s: string): (r: string)
    ensures |r| == |s| && Lower(r) == Lower(s)
    ensures |s| > 0 && IsLetter(s[0]) ==> IsUpper(r[0])
  {
    LowerTitleAfter(s, false);
    TitleAfter(s, false)
  }

  /** Number of leading whitespace characters. */
  function Leading(s: string): (k: nat)
    ensures k <= |s|
    ensures forall i :: 0 <= i < k ==> IsSpace(s[i])
    ensures k < |s| ==> !IsSpace(s[k])
  {
    if |s| > 0 && IsSpace(s[0]) then 1 + Leading(s[1..]) else 0
  }

  /** Length of s without its trailing whitespace. */
  function Trailing(s: string): (k: nat)
    ensures k <= |s|
    ensures forall i :: k <= i < |s| ==> IsSpace(s[i])
    ensures 0 < k ==> !IsSpace(s[k - 1])
  {
    if |s| > 0 && IsSpace(s[|s| - 1]) then Trailing(s[..|s| - 1]) else |s|
  }

  /** str.strip(): s with its leading and trailing whitespace removed, and nothing else. */
  function Strip(s: string): (r: string)
    ensures Leading(s) + |r| <= |s| && r == s[Leading(s)..Leading(s) + |r|]
    ensures forall i :: 0 <= i < |s| && !(Leading(s) <= i < Leading(s) + |r|) ==> IsSpace(s[i])
    ensures |r| > 0 ==> !IsSpace(r[0]) && !IsSpace(r[|r| - 1])
  {
    if Leading(s) == |s| then [] else s[Leading(s)..Trailing(s)]
  }

  /** Stripping a string that has no whitespace at either end changes nothing. */
  lemma StripUnchanged(s: string)
    requires |s| > 0 ==> !IsSpace(s[0]) && !IsSpace(s[|s| - 1])
    ensures Strip(s) == s
  {
    if |s| > 0 {
      assert Leading(s) == 0;
      assert Trailing(s) == |s|;
    }
  }

  /** Lower-casing a string twice is lower-casing it once. */
  lemma LowerIdempotent(s: string)
    ensures Lower(Lower(s)) == Lower(s)
  {
  }

  /** Re-casing a string with str.title() loses nothing that str.lower() keeps. */
  lemma {:induction false} LowerTitleAfter(s: string, afterCased: bool)
    ensures Lower(TitleAfter(s, afterCased)) == Lower(s)
  {
    if s != [] {
      LowerTitleAfter(s[1..], IsLetter(s[0]));
      var t := TitleAfter(s, afterCased);
      assert t[1..] == TitleAfter(s[1..], IsLetter(s[0]));
      forall i | 0 <= i < |s|
        ensures Lower(t)[i] == Lower(s)[i]
      {
        LowerAt(t, i);
        LowerAt(s, i);
      }
    }
  }

  /** Lower-casing works character by character, so it commutes with dropping the first one. */
  lemma LowerAt(s: string, i: nat)
    requires i < |s|
    ensures Lower(s)[i] == ToLower(s[i])
    ensures 0 < i ==> Lower(s)[i] == Lower(s[1..])[i - 1]
  {
  }

  /** On a word of letters, str.title() upper-cases the first letter and lower-cases the rest. */
  lemma {:induction false} TitleOfLetters(s: string, afterCased: bool)
    requires forall i :: 0 <= i < |s| ==> IsLetter(s[i])
    ensures |s| > 0 ==> TitleAfter(s, afterCased)[0] == (if afterCased then ToLower(s[0]) else ToUpper(s[0]))
    ensures forall i :: 0 < i < |s| ==> TitleAfter(s, afterCased)[i] == ToLower(s[i])
  {
    if s != [] {
      TitleOfLetters(s[1..], true);
      assert TitleAfter(s, afterCased)[1..] == TitleAfter(s[1..], true);
      forall i | 0 < i < |s|
        ensures TitleAfter(s, afterCased)[i] == ToLower(s[i])
      {
        if i > 1 {
          assert TitleAfter(s[1..], true)[i - 1] == ToLower(s[1..][i - 1]);
        }
      }
    }
  }
}
