/** The string operations every service applies to its input: removing surrounding white space, and upper case. */
module Text {
  /** The characters of the Unicode White_Space property. */
  predicate IsSpace(c: char) {
    var n := c as int;
    9 <= n <= 13 || n in {32, 0x85, 0xA0, 0x1680, 0x2028, 0x2029, 0x202F, 0x205F, 0x3000} || 0x2000 <= n <= 0x200A
  }

  /** They are these, one by one. */
  lemma SpaceCharacters(c: char)
    ensures IsSpace(c) <==> c in {
      '\t', '\n', '\U{0B}', '\U{0C}', '\r', ' ', '\U{85}', '\U{A0}', '\U{1680}', '\U{2000}', '\U{2001}', '\U{2002}',
      '\U{2003}', '\U{2004}', '\U{2005}', '\U{2006}', '\U{2007}', '\U{2008}', '\U{2009}', '\U{200A}', '\U{2028}',
      '\U{2029}', '\U{202F}', '\U{205F}', '\U{3000}'}
  {
    assert (c as int) as char == c;
  }

  predicate AllSpace(s: string) {
    forall i :: 0 <= i < |s| ==> IsSpace(s[i])
  }

  /** Some character is not white space. */
  predicate HasText(s: string) {
    exists i :: 0 <= i < |s| && !IsSpace(s[i])
  }

  function TrimLeft(s: string): string {
    if s != [] && IsSpace(s[0]) then TrimLeft(s[1..]) else s
  }

  function TrimRight(s: string): string {
    if s != [] && IsSpace(s[|s| - 1]) then TrimRight(s[..|s| - 1]) else s
  }

  function TrimSpace(s: string): string {
    TrimRight(TrimLeft(s))
  }

  /** Neither end of s is white space. */
  predicate Tight(s: string) {
    s != [] ==> !IsSpace(s[0]) && !IsSpace(s[|s| - 1])
  }

  lemma {:induction false} TrimLeftDrops(s: string) returns (left: string)
    ensures s == left + TrimLeft(s) && AllSpace(left)
    ensures TrimLeft(s) != [] ==> !IsSpace(TrimLeft(s)[0])
  {
    left := [];
    if s == [] || !IsSpace(s[0]) {
    } else {
      var rest := TrimLeftDrops(s[1..]);
      left := [s[0]] + rest;
    }
  }

  lemma {:induction false} TrimRightDrops(s: string) returns (right: string)
    ensures s == TrimRight(s) + right && AllSpace(right)
    ensures TrimRight(s) != [] ==> !IsSpace(TrimRight(s)[|TrimRight(s)| - 1])
  {
    right := [];
    if s == [] || !IsSpace(s[|s| - 1]) {
    } else {
      var rest := TrimRightDrops(s[..|s| - 1]);
      right := rest + [s[|s| - 1]];
    }
  }

  /** Trimming takes white space off both ends and nothing else. */
  lemma TrimSpaceIsTheMiddle(s: string) returns (left: string, right: string)
    ensures s == left + TrimSpace(s) + right && AllSpace(left) && AllSpace(right) && Tight(TrimSpace(s))
  {
    left := TrimLeftDrops(s);
    right := TrimRightDrops(TrimLeft(s));
    assert TrimSpace(s) != [] ==> TrimSpace(s)[0] == TrimLeft(s)[0];
  }

  /** A text is blank when it consists of white space only. */
  lemma BlankIff(s: string)
    ensures TrimSpace(s) != "" <==> HasText(s)
  {
    var left, right := TrimSpaceIsTheMiddle(s);
    var middle := TrimSpace(s);
    if middle != "" {
      assert s[|left|] == middle[0];
    } else {
      assert s == left + right;
    }
  }

  function Upper(c: char): char {
    if 'a' <= c <= 'z' then (c as int - 32) as char else c
  }

  /** Upper case of the ASCII letters. */
  function ToUpper(s: string): string {
    seq(|s|, i requires 0 <= i < |s| => Upper(s[i]))
  }

  const SMALL_LETTERS: string := "abcdefghijklmnopqrstuvwxyz"
  const CAPITAL_LETTERS: string := "ABCDEFGHIJKLMNOPQRSTUVWXYZ"

  lemma AlphabetPlaces(k: nat)
    requires k < 26
    ensures SMALL_LETTERS[k] as int == 'a' as int + k
    ensures CAPITAL_LETTERS[k] as int == 'A' as int + k
  {
  }

  lemma SmallLetterHasPlace(c: char)
    requires 'a' <= c <= 'z'
    ensures c in SMALL_LETTERS
  {
    var n := c as int - 'a' as int;
    AlphabetPlaces(n);
    hide SMALL_LETTERS;
    assert SMALL_LETTERS[n] == c;
  }

  /** Each small letter becomes the capital at its place in the alphabet, and every other character stays. */
  lemma UpperLetters(s: string, i: nat, k: nat)
    requires i < |s| && k < 26
    ensures |ToUpper(s)| == |s|
    ensures s[i] == SMALL_LETTERS[k] ==> ToUpper(s)[i] == CAPITAL_LETTERS[k]
    ensures s[i] !in SMALL_LETTERS ==> ToUpper(s)[i] == s[i]
  {
    AlphabetPlaces(k);
    if 'a' <= s[i] <= 'z' {
      SmallLetterHasPlace(s[i]);
    }
    hide SMALL_LETTERS, CAPITAL_LETTERS;
  }

  /** Trimmed text is tight, and trimming it again changes nothing. */
  lemma TrimSpaceIsIdempotent(s: string)
    ensures Tight(TrimSpace(s))
    ensures TrimSpace(TrimSpace(s)) == TrimSpace(s)
  {
    var left, right := TrimSpaceIsTheMiddle(s);
  }

  /** The same for a code, which is trimmed and then upper-cased. */
  lemma CodeIsIdempotent(s: string)
    ensures var code := ToUpper(TrimSpace(s)); ToUpper(TrimSpace(code)) == code
  {
    var code := ToUpper(TrimSpace(s));
    TrimSpaceIsIdempotent(s);
    assert Tight(code);
    assert TrimSpace(code) == code;
  }
}
