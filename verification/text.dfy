/** JavaScript's `String.prototype.toUpperCase` and `toLowerCase`, as far as
    they matter to a comparison against an all-ASCII keyword.

    A string's case-mapped form can equal an ASCII keyword only through the
    characters whose mapping is all ASCII. Besides the ASCII letters these are,
    for upper case, the dotless i, the long s, the sharp s and the Latin
    ligatures U+FB00..U+FB06 (which expand to two or three letters), and, for
    lower case, the Kelvin sign. Every other character is kept as it is here;
    its real mapping is not ASCII either, so no keyword comparison changes.
 */
module Text {

  predicate IsAsciiLower(c: char) {
    'a' <= c <= 'z'
  }

  predicate IsAsciiUpper(c: char) {
    'A' <= c <= 'Z'
  }

  /** The upper-case form of one character (possibly several characters long). */
  function UpperChar(c: char): (u: string)
    ensures 1 <= |u| <= 3
    ensures IsAsciiLower(c) ==> u == [(c as int - 32) as char]
    ensures IsAsciiUpper(c) ==> u == [c]
  {
    if IsAsciiLower(c) then [(c as int - 32) as char]
    else if c == '\U{131}' then "I"      // LATIN SMALL LETTER DOTLESS I
    else if c == '\U{17F}' then "S"      // LATIN SMALL LETTER LONG S
    else if c == '\U{DF}' then "SS"      // LATIN SMALL LETTER SHARP S
    else if c == '\U{FB00}' then "FF"
    else if c == '\U{FB01}' then "FI"
    else if c == '\U{FB02}' then "FL"
    else if c == '\U{FB03}' then "FFI"
    else if c == '\U{FB04}' then "FFL"
    else if c == '\U{FB05}' || c == '\U{FB06}' then "ST"
    else [c]
  }

  /** The lower-case form of one character. */
  function LowerChar(c: char): (l: char)
    ensures IsAsciiUpper(c) ==> l as int == c as int + 32
    ensures !IsAsciiUpper(c) && c != '\U{212A}' ==> l == c
  {
    if IsAsciiUpper(c) then (c as int + 32) as char
    else if c == '\U{212A}' then 'k'     // KELVIN SIGN
    else c
  }

  function UpperCase(s: string): (u: string)
    ensures |s| <= |u| <= 3 * |s|
  {
    if |s| == 0 then "" else UpperChar(s[0]) + UpperCase(s[1..])
  }

  function LowerCase(s: string): (l: string)
    ensures |l| == |s|
  {
    if |s| == 0 then "" else [LowerChar(s[0])] + LowerCase(s[1..])
  }

  /** The character with its ASCII letter case forgotten. */
  function FoldAscii(c: char): char {
    if IsAsciiLower(c) then (c as int - 32) as char else c
  }

  /** `p` and `q` differ at most in the case of ASCII letters. */
  predicate SameUpToAsciiCase(p: string, q: string) {
    |p| == |q| && forall i :: 0 <= i < |p| ==> FoldAscii(p[i]) == FoldAscii(q[i])
  }

  lemma UpperCharFold(a: char, b: char)
    requires FoldAscii(a) == FoldAscii(b)
    ensures UpperChar(a) == UpperChar(b)
    ensures LowerChar(a) == LowerChar(b)
  {
  }

  /** Upper-casing forgets ASCII letter case. */
  lemma {:induction false} UpperCaseIgnoresCase(p: string, q: string)
    requires SameUpToAsciiCase(p, q)
    ensures UpperCase(p) == UpperCase(q)
    decreases |p|
  {
    if |p| > 0 {
      UpperCharFold(p[0], q[0]);
      assert SameUpToAsciiCase(p[1..], q[1..]) by {
        forall i | 0 <= i < |p| - 1
          ensures FoldAscii(p[1..][i]) == FoldAscii(q[1..][i])
        {
          assert p[1..][i] == p[i + 1] && q[1..][i] == q[i + 1];
        }
      }
      UpperCaseIgnoresCase(p[1..], q[1..]);
    }
  }

  /** Lower-casing forgets ASCII letter case. */
  lemma LowerCaseIgnoresCase(p: string, q: string)
    requires SameUpToAsciiCase(p, q)
    ensures LowerCase(p) == LowerCase(q)
  {
    forall i | 0 <= i < |p|
      ensures LowerCase(p)[i] == LowerCase(q)[i]
    {
      LowerCaseAt(p, i);
      LowerCaseAt(q, i);
      UpperCharFold(p[i], q[i]);
    }
  }

  /** Lower-casing maps each character on its own. */
  lemma {:induction false} LowerCaseAt(s: string, i: int)
    requires 0 <= i < |s|
    ensures LowerCase(s)[i] == LowerChar(s[i])
    decreases i
  {
    if i > 0 {
      LowerCaseAt(s[1..], i - 1);
    }
  }

  predicate AllAsciiLower(s: string) {
    forall i :: 0 <= i < |s| ==> IsAsciiLower(s[i])
  }

  /** A string of lower-case ASCII letters is its own lower-case form. */
  lemma LowerCaseOfLower(s: string)
    requires AllAsciiLower(s)
    ensures LowerCase(s) == s
  {
    forall i | 0 <= i < |s|
      ensures LowerCase(s)[i] == s[i]
    {
      LowerCaseAt(s, i);
    }
  }

  /** An ASCII string lower-cases to its lower-case ASCII counterpart. */
  lemma LowerCaseOfAscii(p: string, q: string)
    requires AllAsciiLower(q) && SameUpToAsciiCase(p, q)
    ensures LowerCase(p) == q
  {
    LowerCaseIgnoresCase(p, q);
    LowerCaseOfLower(q);
  }

  predicate AllAsciiUpper(s: string) {
    forall i :: 0 <= i < |s| ==> IsAsciiUpper(s[i])
  }

  /** A string that is already upper-case ASCII is its own upper-case form. */
  lemma {:induction false} UpperCaseOfUpper(s: string)
    requires AllAsciiUpper(s)
    ensures UpperCase(s) == s
    decreases |s|
  {
    if |s| > 0 {
      assert AllAsciiUpper(s[1..]) by {
        forall i | 0 <= i < |s| - 1
          ensures IsAsciiUpper(s[1..][i])
        {
          assert s[1..][i] == s[i + 1];
        }
      }
      UpperCaseOfUpper(s[1..]);
      assert s == [s[0]] + s[1..];
    }
  }

  /** Upper-casing works character by character, so it distributes over concatenation. */
  lemma {:induction false} UpperCaseAppend(a: string, b: string)
    ensures UpperCase(a + b) == UpperCase(a) + UpperCase(b)
    decreases |a|
  {
    if |a| > 0 {
      assert (a + b)[1..] == a[1..] + b;
      UpperCaseAppend(a[1..], b);
    } else {
      assert a + b == b;
    }
  }

  /** An ASCII string upper-cases to its upper-case ASCII counterpart. */
  lemma UpperCaseOfAscii(p: string, q: string)
    requires AllAsciiUpper(q) && SameUpToAsciiCase(p, q)
    ensures UpperCase(p) == q
  {
    UpperCaseIgnoresCase(p, q);
    UpperCaseOfUpper(q);
  }

  /** Worked value: lower-case ASCII letters are upper-cased. */
  lemma UpperCaseAscii()
    ensures UpperCase("mtd") == "MTD"
  {
    UpperCaseOfAscii("mtd", "MTD");
  }

  /** Worked value: the long s upper-cases to S, so `ye\U{17F}terday` reads as `YESTERDAY`. */
  lemma UpperCaseLongS()
    ensures UpperCase("ye\U{17F}terday") == "YESTERDAY"
  {
    assert UpperCase("ye") == "YE" by { UpperCaseOfAscii("ye", "YE"); }
    assert UpperCase("terday") == "TERDAY" by { UpperCaseOfAscii("terday", "TERDAY"); }
    assert UpperCase("\U{17F}") == "S";
    UpperCaseAppend("ye", "\U{17F}");
    UpperCaseAppend("ye" + "\U{17F}", "terday");
    YesterdayPieces();
  }

  /** The pieces `UpperCaseLongS` splits its word into. */
  lemma YesterdayPieces()
    ensures "ye" + "\U{17F}" + "terday" == "ye\U{17F}terday"
    ensures "YE" + "S" + "TERDAY" == "YESTERDAY"
  {
  }

  /** Worked value: the st ligature expands to two letters when upper-cased. */
  lemma UpperCaseLigature()
    ensures UpperCase("la\U{FB06}month") == "LASTMONTH"
  {
    assert UpperCase("la") == "LA" by { UpperCaseOfAscii("la", "LA"); }
    assert UpperCase("month") == "MONTH" by { UpperCaseOfAscii("month", "MONTH"); }
    assert UpperCase("\U{FB06}") == "ST";
    UpperCaseAppend("la", "\U{FB06}");
    UpperCaseAppend("la" + "\U{FB06}", "month");
    LastmonthPieces();
  }

  /** The pieces `UpperCaseLigature` splits its word into. */
  lemma LastmonthPieces()
    ensures "la" + "\U{FB06}" + "month" == "la\U{FB06}month"
    ensures "LA" + "ST" + "MONTH" == "LASTMONTH"
  {
  }

  /** Worked value: upper-case ASCII letters are lower-cased. */
  lemma LowerCaseExample()
    ensures LowerCase("FoReCaSt") == "forecast"
  {
    LowerCaseOfAscii("FoReCaSt", "forecast");
  }
}
