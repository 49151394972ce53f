/**
 * The parts of Python's built-in `str` methods that the registration routine uses:
 * `strip()`, `lower()`, `replace(old, new)` for a single character and `title()`.
 * Whitespace and case are modelled on the ASCII range.
 */
module PyStr {

  // ---------------------------------------------------------------------------
  // Characters
  // ---------------------------------------------------------------------------

  /** `str.isspace` on ASCII: space, \t, \n, \v, \f, \r and the separators U+001C..U+001F. */
  predicate IsSpace(c: char) {
    c == ' ' || ('\t' <= c <= '\r') || ('\U{1C}' <= c <= '\U{1F}')
  }

  predicate IsUpper(c: char) { 'A' <= c <= 'Z' }

  predicate IsLower(c: char) { 'a' <= c <= 'z' }

  /** A cased character in the sense of `str.title`: a letter that has an upper and a lower form. */
  predicate IsCased(c: char) { IsUpper(c) || IsLower(c) }

  function LowerChar(c: char): char {
    if IsUpper(c) then (c as int + 32) as char else c
  }

  function UpperChar(c: char): char {
    if IsLower(c) then (c as int - 32) as char else c
  }

  /** Changing case keeps a character cased or uncased, and never touches whitespace. */
  lemma CaseMapsKeepClass(c: char)
    ensures IsCased(LowerChar(c)) == IsCased(c) && IsCased(UpperChar(c)) == IsCased(c)
    ensures IsSpace(LowerChar(c)) == IsSpace(c)
    ensures !IsUpper(LowerChar(c)) && !IsLower(UpperChar(c))
    ensures LowerChar(LowerChar(c)) == LowerChar(c) && LowerChar(UpperChar(c)) == LowerChar(c)
    ensures UpperChar(LowerChar(c)) == UpperChar(c)
  {
  }

  // ---------------------------------------------------------------------------
  // strip()
  // ---------------------------------------------------------------------------

  predicate AllSpace(s: string) {
    forall i :: 0 <= i < |s| ==> IsSpace(s[i])
  }

  /** Neither end of `s` is whitespace. */
  predicate Trimmed(s: string) {
    s == [] || (!IsSpace(s[0]) && !IsSpace(s[|s| - 1]))
  }

  /** The first index at or after `i` that does not hold whitespace (`|s|` if there is none). */
  function SkipSpace(s: string, i: nat): (n: nat)
    requires i <= |s|
    ensures i <= n <= |s|
    ensures forall k :: i <= k < n ==> IsSpace(s[k])
    ensures n == |s| || !IsSpace(s[n])
    decreases |s| - i
  {
    if i < |s| && IsSpace(s[i]) then SkipSpace(s, i + 1) else i
  }

  /** Moving `j` back over whitespace, but not below `lo`. */
  function BackSpace(s: string, lo: nat, j: nat): (n: nat)
    requires lo <= j <= |s|
    ensures lo <= n <= j
    ensures forall k :: n <= k < j ==> IsSpace(s[k])
    ensures n == lo || !IsSpace(s[n - 1])
    decreases j
  {
    if lo < j && IsSpace(s[j - 1]) then BackSpace(s, lo, j - 1) else j
  }

  /** `str.strip()` with no argument, as CPython computes it: scan from the left, then from the right. */
  function Strip(s: string): (r: string)
    ensures Trimmed(r)
    ensures r == [] <==> AllSpace(s)
  {
    var i := SkipSpace(s, 0);
    var j := BackSpace(s, i, |s|);
    assert j > i ==> !IsSpace(s[i]);
    s[i..j]
  }

  /**
   * An independent description of `strip()`: whatever surrounds a trimmed middle part
   * with whitespace on both sides, stripping gives back exactly that middle part.
   */
  lemma StripRemovesSurroundingSpace(a: string, m: string, b: string)
    requires AllSpace(a) && AllSpace(b) && Trimmed(m)
    ensures Strip(a + m + b) == m
  {
    var s := a + m + b;
    assert forall k :: 0 <= k < |a| ==> s[k] == a[k];
    assert forall k :: |a| + |m| <= k < |s| ==> s[k] == b[k - |a| - |m|];
    var i := SkipSpace(s, 0);
    var j := BackSpace(s, i, |s|);
    if m == [] {
      assert AllSpace(s) by {
        forall k | 0 <= k < |s| ensures IsSpace(s[k]) {
          if k >= |a| { assert s[k] == b[k - |a|]; }
        }
      }
    } else {
      assert s[|a|] == m[0] && s[|a| + |m| - 1] == m[|m| - 1];
      assert i == |a|;
      assert j == |a| + |m|;
      assert s[i..j] == m;
    }
  }

  /** `strip()` only removes whitespace from the two ends: `s` is the result padded with whitespace. */
  lemma StripIsInfix(s: string) returns (a: string, b: string)
    ensures AllSpace(a) && AllSpace(b) && s == a + Strip(s) + b
  {
    var i := SkipSpace(s, 0);
    var j := BackSpace(s, i, |s|);
    a, b := s[..i], s[j..];
    assert s == s[..i] + s[i..j] + s[j..];
  }

  lemma StripIdempotent(s: string)
    ensures Strip(Strip(s)) == Strip(s)
  {
    var r := Strip(s);
    assert [] + r + [] == r;
    StripRemovesSurroundingSpace([], r, []);
  }

  // ---------------------------------------------------------------------------
  // lower()
  // ---------------------------------------------------------------------------

  /** `str.lower()`. */
  function Lower(s: string): (r: string)
    ensures |r| == |s|
    ensures forall i :: 0 <= i < |s| ==> r[i] == LowerChar(s[i])
  {
    if s == [] then [] else [LowerChar(s[0])] + Lower(s[1..])
  }

  lemma LowerHasNoUpper(s: string)
    ensures forall i :: 0 <= i < |s| ==> !IsUpper(Lower(s)[i])
  {
    forall i | 0 <= i < |s| ensures !IsUpper(Lower(s)[i]) {
      CaseMapsKeepClass(s[i]);
    }
  }

  lemma LowerIdempotent(s: string)
    ensures Lower(Lower(s)) == Lower(s)
  {
    forall i | 0 <= i < |s| ensures Lower(Lower(s))[i] == Lower(s)[i] {
      CaseMapsKeepClass(s[i]);
    }
  }

  lemma LowerDistributes(x: string, y: string)
    ensures Lower(x + y) == Lower(x) + Lower(y)
  {
    assert forall i :: 0 <= i < |x + y| ==> Lower(x + y)[i] == (Lower(x) + Lower(y))[i];
  }

  /** Lowering keeps whitespace where it is. */
  lemma LowerKeepsSpace(s: string)
    ensures forall i :: 0 <= i < |s| ==> IsSpace(Lower(s)[i]) == IsSpace(s[i])
    ensures AllSpace(Lower(s)) == AllSpace(s)
    ensures Trimmed(Lower(s)) == Trimmed(s)
  {
    forall i | 0 <= i < |s| ensures IsSpace(Lower(s)[i]) == IsSpace(s[i]) {
      CaseMapsKeepClass(s[i]);
    }
  }

  /** Lowering commutes with `strip()`. */
  lemma LowerCommutesWithStrip(s: string)
    ensures Strip(Lower(s)) == Lower(Strip(s))
  {
    var a, b := StripIsInfix(s);
    var m := Strip(s);
    LowerDistributes(a, m);
    LowerDistributes(a + m, b);
    LowerKeepsSpace(a);
    LowerKeepsSpace(m);
    LowerKeepsSpace(b);
    StripRemovesSurroundingSpace(Lower(a), Lower(m), Lower(b));
  }

  // ---------------------------------------------------------------------------
  // replace(old, new) for one character
  // ---------------------------------------------------------------------------

  /** `s.replace(old, new)` where both are single characters: every occurrence is replaced. */
  function ReplaceChar(s: string, from: char, to: char): (r: string)
    ensures |r| == |s|
    ensures forall i :: 0 <= i < |s| ==> r[i] == if s[i] == from then to else s[i]
  {
    if s == [] then [] else [if s[0] == from then to else s[0]] + ReplaceChar(s[1..], from, to)
  }

  lemma ReplaceCharLeavesNoOld(s: string, from: char, to: char)
    requires from != to
    ensures from !in ReplaceChar(s, from, to)
  {
    var r := ReplaceChar(s, from, to);
    assert forall i :: 0 <= i < |r| ==> r[i] != from;
  }

  // ---------------------------------------------------------------------------
  // title()
  // ---------------------------------------------------------------------------

  /**
   * CPython's title-casing loop: a character is lowered when the character before it in the
   * INPUT was cased, and upper-cased otherwise; `prevCased` is that flag for `s[0]`.
   */
  function TitleFrom(prevCased: bool, s: string): (r: string)
    ensures |r| == |s|
    ensures forall i :: 0 <= i < |s| ==>
      r[i] == if (if i == 0 then prevCased else IsCased(s[i - 1])) then LowerChar(s[i]) else UpperChar(s[i])
    decreases |s|
  {
    if s == [] then []
    else [if prevCased then LowerChar(s[0]) else UpperChar(s[0])] + TitleFrom(IsCased(s[0]), s[1..])
  }

  /** `str.title()`: the first cased letter of every run of cased letters is upper-cased, the rest lowered. */
  function Title(s: string): (r: string)
    ensures |r| == |s|
    ensures forall i :: 0 <= i < |s| ==>
      r[i] == if i > 0 && IsCased(s[i - 1]) then LowerChar(s[i]) else UpperChar(s[i])
  {
    TitleFrom(false, s)
  }

  /** The rule of `Title` at one position, as a fact to instantiate. */
  lemma TitleAt(s: string, i: nat)
    requires i < |s|
    ensures |Title(s)| == |s|
    ensures Title(s)[i] == if i > 0 && IsCased(s[i - 1]) then LowerChar(s[i]) else UpperChar(s[i])
  {
    var r := Title(s);
    assert r[i] == if i > 0 && IsCased(s[i - 1]) then LowerChar(s[i]) else UpperChar(s[i]);
  }

  /** Title-casing changes only case: lowering its result is lowering its input. */
  lemma LowerOfTitle(s: string)
    ensures Lower(Title(s)) == Lower(s)
  {
    forall i | 0 <= i < |s| ensures Lower(Title(s))[i] == Lower(s)[i] {
      TitleAt(s, i);
      CaseMapsKeepClass(s[i]);
    }
  }

  /** Title-casing ignores the case its input was in. */
  lemma TitleOfLower(s: string)
    ensures Title(Lower(s)) == Title(s)
  {
    forall i | 0 <= i < |s| ensures Title(Lower(s))[i] == Title(s)[i] {
      TitleAt(s, i);
      TitleAt(Lower(s), i);
      CaseMapsKeepClass(s[i]);
      if i > 0 { CaseMapsKeepClass(s[i - 1]); }
    }
  }

  lemma TitleIdempotent(s: string)
    ensures Title(Title(s)) == Title(s)
  {
    forall i | 0 <= i < |s| ensures Title(Title(s))[i] == Title(s)[i] {
      TitleAt(s, i);
      TitleAt(Title(s), i);
      CaseMapsKeepClass(s[i]);
      if i > 0 {
        TitleAt(s, i - 1);
        CaseMapsKeepClass(s[i - 1]);
      }
    }
  }

  /** Title-casing never touches an uncased character such as `_`, a space or a digit. */
  lemma TitleKeepsUncased(s: string, i: nat)
    requires i < |s| && !IsCased(s[i])
    ensures Title(s)[i] == s[i]
  {
    TitleAt(s, i);
  }

  /** A letter after an uncased character (a digit, an apostrophe) starts a new word: `title("2fa")` is "2Fa". */
  lemma TitleRestartsAfterDigit()
    ensures Title("2fa") == "2Fa"
  {
    assert Title("2fa")[1] == 'F';
  }
}
