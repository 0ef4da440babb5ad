/**
 * The few JavaScript string operations the modelled code relies on:
 * `String.prototype.trim`, `startsWith` and `includes`.
 * Strings are sequences of characters; a character is one Unicode scalar
 * value, where JavaScript would count a character outside the Basic
 * Multilingual Plane as two UTF-16 code units.
 */
module Text {

  /** The code points `trim` removes: ECMAScript's WhiteSpace and LineTerminator characters. */
  predicate IsWhiteSpace(c: char) {
    || c == '\t' || c == '\n' || c == '\U{000B}' || c == '\U{000C}' || c == '\r'
    || c == ' ' || c == '\U{00A0}' || c == '\U{1680}'
    || ('\U{2000}' <= c <= '\U{200A}')
    || c == '\U{2028}' || c == '\U{2029}' || c == '\U{202F}' || c == '\U{205F}'
    || c == '\U{3000}' || c == '\U{FEFF}'
  }

  predicate AllWhiteSpace(s: string) {
    forall i :: 0 <= i < |s| ==> IsWhiteSpace(s[i])
  }

  /** Number of white-space characters at the start of `s`. */
  function LeadingWhiteSpace(s: string): (k: nat)
    ensures k <= |s|
  {
    if s != [] && IsWhiteSpace(s[0]) then 1 + LeadingWhiteSpace(s[1..]) else 0
  }

  /** Number of white-space characters at the end of `s`. */
  function TrailingWhiteSpace(s: string): (k: nat)
    ensures k <= |s|
  {
    if s != [] && IsWhiteSpace(s[|s| - 1]) then 1 + TrailingWhiteSpace(s[..|s| - 1]) else 0
  }

  /** The leading white space is a maximal run of white space at the start. */
  lemma {:induction false} LeadingWhiteSpaceSpan(s: string)
    ensures forall i :: 0 <= i < LeadingWhiteSpace(s) ==> IsWhiteSpace(s[i])
    ensures LeadingWhiteSpace(s) < |s| ==> !IsWhiteSpace(s[LeadingWhiteSpace(s)])
    decreases |s|
  {
    if s != [] && IsWhiteSpace(s[0]) {
      var k := LeadingWhiteSpace(s);
      LeadingWhiteSpaceSpan(s[1..]);
      forall i | 1 <= i < k ensures IsWhiteSpace(s[i]) {
        assert s[i] == s[1..][i - 1];
      }
      assert k < |s| ==> s[k] == s[1..][k - 1];
    }
  }

  /** The trailing white space is a maximal run of white space at the end. */
  lemma {:induction false} TrailingWhiteSpaceSpan(s: string)
    ensures forall i :: |s| - TrailingWhiteSpace(s) <= i < |s| ==> IsWhiteSpace(s[i])
    ensures TrailingWhiteSpace(s) < |s| ==> !IsWhiteSpace(s[|s| - 1 - TrailingWhiteSpace(s)])
    decreases |s|
  {
    if s != [] && IsWhiteSpace(s[|s| - 1]) {
      var k := TrailingWhiteSpace(s);
      var init := s[..|s| - 1];
      TrailingWhiteSpaceSpan(init);
      forall i | |s| - k <= i < |s| - 1 ensures IsWhiteSpace(s[i]) {
        assert s[i] == init[i];
      }
      assert k < |s| ==> s[|s| - 1 - k] == init[|init| - 1 - (k - 1)];
    }
  }

  /**
   * `s.trim()`: `s` without its leading and trailing white space; it is
   * empty exactly when `s` is all white space.  `TrimSplitsText` and
   * `TrimRemovesPadding` below pin the result down.
   */
  function Trim(s: string): (t: string)
    ensures |t| <= |s|
    ensures t == [] <==> AllWhiteSpace(s)
  {
    var k := LeadingWhiteSpace(s);
    var j := TrailingWhiteSpace(s[k..]);
    NothingLeftIffAllWhiteSpace(s);
    s[k..|s| - j]
  }

  lemma NothingLeftIffAllWhiteSpace(s: string)
    ensures var k := LeadingWhiteSpace(s);
      k + TrailingWhiteSpace(s[k..]) == |s| <==> AllWhiteSpace(s)
  {
    var k := LeadingWhiteSpace(s);
    LeadingWhiteSpaceSpan(s);
    TrailingWhiteSpaceSpan(s[k..]);
  }

  /** The trimmed text neither starts nor ends with white space. */
  lemma TrimHasNoOuterWhiteSpace(s: string)
    ensures var t := Trim(s); t != [] ==> !IsWhiteSpace(t[0]) && !IsWhiteSpace(t[|t| - 1])
  {
    var k := LeadingWhiteSpace(s);
    var rest := s[k..];
    var j := TrailingWhiteSpace(rest);
    var t := Trim(s);
    assert t == rest[..|rest| - j];
    if t != [] {
      LeadingWhiteSpaceSpan(s);
      TrailingWhiteSpaceSpan(rest);
      assert t[0] == s[k];
      assert t[|t| - 1] == rest[|rest| - 1 - j];
    }
  }

  /**
   * The text is its leading white space, then the trimmed text, then its
   * trailing white space.
   */
  lemma TrimSplitsText(s: string)
    ensures var t, k := Trim(s), LeadingWhiteSpace(s);
      && k + |t| <= |s| && t == s[k..k + |t|]
      && (forall i :: 0 <= i < k ==> IsWhiteSpace(s[i]))
      && (forall i :: k + |t| <= i < |s| ==> IsWhiteSpace(s[i]))
  {
    TrimIsSlice(s);
    LeadingWhiteSpaceSpan(s);
    TrimmedTailIsWhiteSpace(s);
  }

  lemma TrimIsSlice(s: string)
    ensures var k, j := LeadingWhiteSpace(s), TrailingWhiteSpace(s[LeadingWhiteSpace(s)..]);
      && Trim(s) == s[k..|s| - j] && |Trim(s)| == |s| - j - k
  {
  }

  lemma TrimmedTailIsWhiteSpace(s: string)
    ensures var k := LeadingWhiteSpace(s);
      forall i :: |s| - TrailingWhiteSpace(s[k..]) <= i < |s| ==> IsWhiteSpace(s[i])
  {
    var k := LeadingWhiteSpace(s);
    TrailingWhiteSpaceSpan(s[k..]);
    SuffixRun(s, k, TrailingWhiteSpace(s[k..]));
  }

  /** A white-space run at the end of a suffix of `s` is one at the end of `s`. */
  lemma SuffixRun(s: string, k: nat, j: nat)
    requires k + j <= |s|
    requires forall i :: |s| - k - j <= i < |s| - k ==> IsWhiteSpace(s[k..][i])
    ensures forall i :: |s| - j <= i < |s| ==> IsWhiteSpace(s[i])
  {
    forall i | |s| - j <= i < |s| ensures IsWhiteSpace(s[i]) {
      assert s[i] == s[k..][i - k];
    }
  }

  /** `!s || s.trim().length === 0`: the text is empty or white space only. */
  predicate IsBlank(s: string) {
    Trim(s) == []
  }

  /** White space in front of a text that starts with something else is exactly the leading white space. */
  lemma {:induction false} LeadingOfPadded(left: string, u: string)
    requires AllWhiteSpace(left) && u != [] && !IsWhiteSpace(u[0])
    ensures LeadingWhiteSpace(left + u) == |left|
    decreases |left|
  {
    if left != [] {
      assert (left + u)[0] == left[0];
      assert (left + u)[1..] == left[1..] + u;
      LeadingOfPadded(left[1..], u);
    } else {
      assert left + u == u;
    }
  }

  /** White space after a text that ends with something else is exactly the trailing white space. */
  lemma {:induction false} TrailingOfPadded(u: string, right: string)
    requires AllWhiteSpace(right) && u != [] && !IsWhiteSpace(u[|u| - 1])
    ensures TrailingWhiteSpace(u + right) == |right|
    decreases |right|
  {
    var s := u + right;
    if right != [] {
      assert s[|s| - 1] == right[|right| - 1];
      assert s[..|s| - 1] == u + right[..|right| - 1];
      TrailingOfPadded(u, right[..|right| - 1]);
    } else {
      assert s == u;
    }
  }

  /**
   * Trim is determined by its contract: padding any text that neither
   * starts nor ends with white space by white space on both sides, and
   * trimming, gives the text back.
   */
  lemma TrimRemovesPadding(left: string, t: string, right: string)
    requires AllWhiteSpace(left) && AllWhiteSpace(right)
    requires t == [] || (!IsWhiteSpace(t[0]) && !IsWhiteSpace(t[|t| - 1]))
    ensures Trim(left + t + right) == t
  {
    var s := left + t + right;
    if t == [] {
      assert s == left + right;
      WhiteSpaceConcat(left, right);
    } else {
      assert s == left + (t + right);
      assert (t + right)[0] == t[0];
      LeadingOfPadded(left, t + right);
      assert s[|left|..] == t + right;
      TrailingOfPadded(t, right);
      assert s[|left|..|s| - |right|] == t;
    }
  }

  /** Trimming twice is trimming once. */
  lemma TrimIdempotent(s: string)
    ensures Trim(Trim(s)) == Trim(s)
  {
    var t := Trim(s);
    TrimHasNoOuterWhiteSpace(s);
    TrimRemovesPadding([], t, []);
    assert [] + t + [] == t;
  }

  /** Appending to a text that is not all white space keeps its leading white space. */
  lemma {:induction false} LeadingAppend(s: string, w: string)
    requires !AllWhiteSpace(s)
    ensures LeadingWhiteSpace(s + w) == LeadingWhiteSpace(s)
    decreases |s|
  {
    assert (s + w)[0] == s[0];
    if IsWhiteSpace(s[0]) {
      var i :| 0 <= i < |s| && !IsWhiteSpace(s[i]);
      assert s[1..][i - 1] == s[i];
      assert (s + w)[1..] == s[1..] + w;
      LeadingAppend(s[1..], w);
    }
  }

  /** Appended white space adds to the trailing white space. */
  lemma {:induction false} TrailingAppend(s: string, w: string)
    requires AllWhiteSpace(w)
    ensures TrailingWhiteSpace(s + w) == |w| + TrailingWhiteSpace(s)
    decreases |w|
  {
    var sw := s + w;
    if w == [] {
      assert sw == s;
    } else {
      assert sw[|sw| - 1] == w[|w| - 1];
      assert sw[..|sw| - 1] == s + w[..|w| - 1];
      assert AllWhiteSpace(w[..|w| - 1]);
      TrailingAppend(s, w[..|w| - 1]);
    }
  }

  /** White space appended to a text does not survive trimming. */
  lemma TrimIgnoresAppendedWhiteSpace(s: string, w: string)
    requires AllWhiteSpace(w)
    ensures Trim(s + w) == Trim(s)
  {
    if AllWhiteSpace(s) {
      WhiteSpaceConcat(s, w);
    } else {
      var k := LeadingWhiteSpace(s);
      LeadingAppend(s, w);
      TrailingAppend(s[k..], w);
      AppendSlices(s, w, k, TrailingWhiteSpace(s[k..]));
    }
  }

  lemma AppendSlices(s: string, w: string, k: nat, j: nat)
    requires k + j <= |s|
    ensures (s + w)[k..] == s[k..] + w
    ensures (s + w)[k..|s + w| - (|w| + j)] == s[k..|s| - j]
  {
  }

  lemma WhiteSpaceConcat(a: string, b: string)
    requires AllWhiteSpace(a) && AllWhiteSpace(b)
    ensures AllWhiteSpace(a + b)
  {
    forall i | 0 <= i < |a + b| ensures IsWhiteSpace((a + b)[i]) {
      if i < |a| { assert (a + b)[i] == a[i]; } else { assert (a + b)[i] == b[i - |a|]; }
    }
  }

  /** JavaScript's `s || fallback` on a string: the empty string is falsy. */
  function OrElse(s: string, fallback: string): (r: string)
    ensures s != [] ==> r == s
    ensures s == [] ==> r == fallback
    ensures r == [] ==> s == [] && fallback == []
  {
    if s != [] then s else fallback
  }

  /** `s.startsWith(prefix)`. */
  predicate StartsWith(s: string, prefix: string) {
    |prefix| <= |s| && s[..|prefix|] == prefix
  }

  /** `part` occurs in `s` at index `i`. */
  predicate OccursAt(s: string, part: string, i: nat) {
    i + |part| <= |s| && s[i..i + |part|] == part
  }

  /** `s.includes(part)`, searching from the left. */
  predicate Contains(s: string, part: string)
    decreases |s|
  {
    StartsWith(s, part) || (s != [] && Contains(s[1..], part))
  }

  /** A part that occurs at some index is found by `includes`. */
  lemma {:induction false} OccursThenContains(s: string, part: string, i: nat)
    requires OccursAt(s, part, i)
    ensures Contains(s, part)
    decreases i
  {
    if i == 0 {
      assert s[..|part|] == s[0..|part|];
    } else {
      assert s[1..][i - 1..i - 1 + |part|] == s[i..i + |part|];
      OccursThenContains(s[1..], part, i - 1);
    }
  }

  /** `includes` finds exactly the parts that occur somewhere in the text. */
  lemma {:induction false} ContainsIffOccurs(s: string, part: string)
    ensures Contains(s, part) <==> exists i: nat :: OccursAt(s, part, i)
    decreases |s|
  {
    forall i: nat | OccursAt(s, part, i) ensures Contains(s, part) {
      OccursThenContains(s, part, i);
    }
    if StartsWith(s, part) {
      assert OccursAt(s, part, 0);
    } else if s != [] && Contains(s[1..], part) {
      ContainsIffOccurs(s[1..], part);
      var i: nat :| OccursAt(s[1..], part, i);
      assert s[1..][i..i + |part|] == s[i + 1..i + 1 + |part|];
      assert OccursAt(s, part, i + 1);
    }
  }
}
