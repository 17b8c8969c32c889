/** The Python string primitives the scoring pipeline relies on, over ASCII:
    `str.isspace`, `str.isalpha`, `str.isdigit`, `str.lower`, `str.strip`,
    `str.split()` with no separator, and the substring test `k in s`. */
module Text {

  /** `str.isspace` on ASCII: blank, tab, line feed, vertical tab, form feed,
      carriage return and the four separator controls 0x1C-0x1F. */
  predicate IsSpace(c: char) {
    c == ' ' || c == '\t' || c == '\n' || c == '\r'
    || c == '\U{B}' || c == '\U{C}' || ('\U{1C}' <= c <= '\U{1F}')
  }

  predicate IsUpper(c: char) { 'A' <= c <= 'Z' }

  /** `str.isalpha` on ASCII. */
  predicate IsAlpha(c: char) { 'a' <= c <= 'z' || IsUpper(c) }

  /** `str.isdigit` on ASCII. */
  predicate IsDigit(c: char) { '0' <= c <= '9' }

  function LowerChar(c: char): char {
    if IsUpper(c) then (c as int + 32) as char else c
  }

  /** `str.lower`: character by character, so length and positions are kept. */
  function Lower(s: string): string {
    seq(|s|, i requires 0 <= i < |s| => LowerChar(s[i]))
  }

  predicate AllSpace(s: string) {
    forall i | 0 <= i < |s| :: IsSpace(s[i])
  }

  function TrimLeft(s: string): string {
    if s != [] && IsSpace(s[0]) then TrimLeft(s[1..]) else s
  }

  function TrimRight(s: string): string {
    if s != [] && IsSpace(s[|s| - 1]) then TrimRight(s[..|s| - 1]) else s
  }

  /** `str.strip()`: leading and trailing whitespace removed. */
  function Strip(s: string): string {
    TrimRight(TrimLeft(s))
  }

  /** Length of the run of non-whitespace characters that starts `s`. */
  function TokenLength(s: string): (n: nat)
    ensures n <= |s|
    ensures forall i | 0 <= i < n :: !IsSpace(s[i])
    ensures n < |s| ==> IsSpace(s[n])
  {
    if s == [] || IsSpace(s[0]) then 0 else 1 + TokenLength(s[1..])
  }

  /** `str.split()` with no separator: the maximal runs of non-whitespace
      characters, in order; leading, trailing and repeated whitespace yield
      no empty token. */
  function Split(s: string): seq<string>
    decreases |s|
  {
    if s == [] then []
    else if IsSpace(s[0]) then Split(s[1..])
    else
      var n := TokenLength(s);
      [s[..n]] + Split(s[n..])
  }

  predicate OccursAt(text: string, k: string, i: int) {
    0 <= i && i + |k| <= |text| && text[i..i + |k|] == k
  }

  /** Python's `k in text` on strings: `k` is a contiguous substring. */
  predicate Contains(text: string, k: string) {
    exists i | 0 <= i <= |text| - |k| :: OccursAt(text, k, i)
  }

  // ---------------------------------------------------------------------
  // Lower
  // ---------------------------------------------------------------------

  lemma LowerIsLowerCase(s: string)
    ensures forall i | 0 <= i < |Lower(s)| :: !IsUpper(Lower(s)[i])
  {
  }

  lemma LowerAppend(a: string, b: string)
    ensures Lower(a + b) == Lower(a) + Lower(b)
  {
  }

  lemma LowerSlice(s: string, i: int, j: int)
    requires 0 <= i <= j <= |s|
    ensures Lower(s[i..j]) == Lower(s)[i..j]
  {
  }

  /** A lower-case key found in a text is found, at the same place, in the
      lower-cased text. */
  lemma ContainsLower(s: string, k: string)
    requires Contains(s, k)
    ensures Contains(Lower(s), Lower(k))
  {
    var i :| 0 <= i <= |s| - |k| && OccursAt(s, k, i);
    LowerSlice(s, i, i + |k|);
    assert OccursAt(Lower(s), Lower(k), i);
  }

  // ---------------------------------------------------------------------
  // Contains
  // ---------------------------------------------------------------------

  lemma ContainsMiddle(pre: string, k: string, post: string)
    ensures Contains(pre + k + post, k)
  {
    assert (pre + k + post)[|pre|..|pre| + |k|] == k;
    assert OccursAt(pre + k + post, k, |pre|);
  }

  lemma ContainsInPart(pre: string, part: string, post: string, k: string)
    requires Contains(part, k)
    ensures Contains(pre + part + post, k)
  {
    var i :| 0 <= i <= |part| - |k| && OccursAt(part, k, i);
    assert (pre + part + post)[|pre| + i..|pre| + i + |k|] == part[i..i + |k|];
    assert OccursAt(pre + part + post, k, |pre| + i);
  }

  /** A substring of a substring is a substring. */
  lemma ContainsTransitive(a: string, b: string, c: string)
    requires Contains(a, b) && Contains(b, c)
    ensures Contains(a, c)
  {
    var i :| 0 <= i <= |a| - |b| && OccursAt(a, b, i);
    var j :| 0 <= j <= |b| - |c| && OccursAt(b, c, j);
    assert a[i..i + |b|] == b;
    forall t | 0 <= t < |c| ensures a[i + j + t] == c[t] {
      assert a[i + j + t] == a[i..i + |b|][j + t] == b[j + t];
    }
    assert a[i + j..i + j + |c|] == c;
    assert OccursAt(a, c, i + j);
  }

  /** A text containing a key with a non-whitespace character is not blank. */
  lemma ContainsNotBlank(s: string, k: string, j: nat)
    requires Contains(s, k)
    requires j < |k| && !IsSpace(k[j])
    ensures !AllSpace(s)
  {
    var i :| 0 <= i <= |s| - |k| && OccursAt(s, k, i);
    assert s[i + j] == k[j];
  }

  // ---------------------------------------------------------------------
  // Strip
  // ---------------------------------------------------------------------

  /** `TrimLeft` drops an all-whitespace prefix and stops at the first
      non-whitespace character. */
  lemma {:induction false} TrimLeftCut(s: string) returns (k: nat)
    ensures k <= |s| && TrimLeft(s) == s[k..]
    ensures forall i | 0 <= i < k :: IsSpace(s[i])
    ensures k < |s| ==> !IsSpace(s[k])
    decreases |s|
  {
    if s != [] && IsSpace(s[0]) {
      var j := TrimLeftCut(s[1..]);
      k := j + 1;
      assert s[1..][j..] == s[k..];
      forall i | 0 <= i < k ensures IsSpace(s[i]) {
        if i > 0 { assert s[i] == s[1..][i - 1]; }
      }
    } else {
      k := 0;
    }
  }

  /** `TrimRight` drops an all-whitespace suffix and stops at the last
      non-whitespace character. */
  lemma {:induction false} TrimRightCut(s: string) returns (k: nat)
    ensures k <= |s| && TrimRight(s) == s[..k]
    ensures forall i | k <= i < |s| :: IsSpace(s[i])
    ensures 0 < k ==> !IsSpace(s[k - 1])
    decreases |s|
  {
    if s != [] && IsSpace(s[|s| - 1]) {
      var t := s[..|s| - 1];
      k := TrimRightCut(t);
      assert t[..k] == s[..k];
      forall i | k <= i < |s| ensures IsSpace(s[i]) {
        if i < |s| - 1 { assert s[i] == t[i]; }
      }
    } else {
      k := |s|;
    }
  }

  /** `str.strip` is the middle part of a text between two all-whitespace ends. */
  lemma StripSplitsText(s: string) returns (a: string, b: string)
    ensures s == a + Strip(s) + b && AllSpace(a) && AllSpace(b)
    ensures Strip(s) == [] || (!IsSpace(Strip(s)[0]) && !IsSpace(Strip(s)[|Strip(s)| - 1]))
  {
    var k := TrimLeftCut(s);
    var t := s[k..];
    var m := TrimRightCut(t);
    a, b := s[..k], t[m..];
    assert s == a + t[..m] + b;
    assert AllSpace(b) by {
      forall i | 0 <= i < |b| ensures IsSpace(b[i]) { assert b[i] == t[m + i]; }
    }
    if m > 0 {
      assert t[..m][0] == s[k];
    }
  }

  /** `s.strip() == ""` exactly when `s` is all whitespace. */
  lemma StripBlank(s: string)
    ensures Strip(s) == [] <==> AllSpace(s)
  {
    var a, b := StripSplitsText(s);
    if Strip(s) == [] {
      assert s == a + b;
      forall i | 0 <= i < |s| ensures IsSpace(s[i]) {
        if i >= |a| { assert s[i] == b[i - |a|]; }
      }
    } else {
      assert s[|a|] == Strip(s)[0];
    }
  }

  lemma {:induction false} TrimLeftPrefix(ws: string, t: string)
    requires AllSpace(ws)
    ensures TrimLeft(ws + t) == TrimLeft(t)
    decreases |ws|
  {
    if ws != [] {
      assert (ws + t)[1..] == ws[1..] + t;
      TrimLeftPrefix(ws[1..], t);
    } else {
      assert ws + t == t;
    }
  }

  lemma {:induction false} TrimRightSuffix(t: string, ws: string)
    requires AllSpace(ws)
    ensures TrimRight(t + ws) == TrimRight(t)
    decreases |ws|
  {
    if ws != [] {
      assert (t + ws)[..|t + ws| - 1] == t + ws[..|ws| - 1];
      TrimRightSuffix(t, ws[..|ws| - 1]);
    } else {
      assert t + ws == t;
    }
  }

  lemma {:induction false} TrimLeftAppend(t: string, ws: string)
    requires AllSpace(ws)
    ensures AllSpace(t) ==> TrimLeft(t + ws) == []
    ensures !AllSpace(t) ==> TrimLeft(t + ws) == TrimLeft(t) + ws
    decreases |t|
  {
    if t == [] {
      assert t + ws == ws + [];
      TrimLeftPrefix(ws, []);
    } else if IsSpace(t[0]) {
      assert (t + ws)[1..] == t[1..] + ws;
      TrimLeftAppend(t[1..], ws);
      if !AllSpace(t) {
        var i :| 0 <= i < |t| && !IsSpace(t[i]);
        assert t[1..][i - 1] == t[i];
      }
    } else {
      assert !IsSpace(t[0]);
    }
  }

  lemma StripPadding(ws1: string, t: string, ws2: string)
    requires AllSpace(ws1) && AllSpace(ws2)
    ensures Strip(ws1 + t + ws2) == Strip(t)
  {
    assert ws1 + t + ws2 == ws1 + (t + ws2);
    TrimLeftPrefix(ws1, t + ws2);
    TrimLeftAppend(t, ws2);
    if AllSpace(t) {
      StripBlank(t);
    } else {
      TrimRightSuffix(TrimLeft(t), ws2);
    }
  }

  lemma {:induction false} TrimLeftLower(s: string)
    ensures TrimLeft(Lower(s)) == Lower(TrimLeft(s))
    decreases |s|
  {
    if s != [] && IsSpace(s[0]) {
      assert Lower(s)[1..] == Lower(s[1..]);
      TrimLeftLower(s[1..]);
    }
  }

  lemma {:induction false} TrimRightLower(s: string)
    ensures TrimRight(Lower(s)) == Lower(TrimRight(s))
    decreases |s|
  {
    if s != [] && IsSpace(s[|s| - 1]) {
      assert Lower(s)[..|s| - 1] == Lower(s[..|s| - 1]);
      TrimRightLower(s[..|s| - 1]);
    }
  }

  /** Lower-casing never turns whitespace into non-whitespace or back, so it
      commutes with stripping. */
  lemma StripLower(s: string)
    ensures Strip(Lower(s)) == Lower(Strip(s))
  {
    TrimLeftLower(s);
    TrimRightLower(TrimLeft(s));
  }

  // ---------------------------------------------------------------------
  // Split
  // ---------------------------------------------------------------------

  lemma {:induction false} SplitLeadingSpace(ws: string, t: string)
    requires AllSpace(ws)
    ensures Split(ws + t) == Split(t)
    decreases |ws|
  {
    if ws != [] {
      assert (ws + t)[1..] == ws[1..] + t;
      SplitLeadingSpace(ws[1..], t);
    } else {
      assert ws + t == t;
    }
  }

  lemma {:induction false} TokenLengthAppendSpace(t: string, ws: string)
    requires AllSpace(ws)
    ensures TokenLength(t + ws) == TokenLength(t)
    decreases |t|
  {
    if t == [] {
      assert t + ws == ws;
    } else if !IsSpace(t[0]) {
      assert (t + ws)[1..] == t[1..] + ws;
      TokenLengthAppendSpace(t[1..], ws);
    }
  }

  lemma {:induction false} SplitTrailingSpace(t: string, ws: string)
    requires AllSpace(ws)
    ensures Split(t + ws) == Split(t)
    decreases |t|
  {
    if t == [] {
      assert t + ws == ws + [];
      SplitLeadingSpace(ws, []);
    } else if IsSpace(t[0]) {
      assert (t + ws)[1..] == t[1..] + ws;
      SplitTrailingSpace(t[1..], ws);
    } else {
      TokenLengthAppendSpace(t, ws);
      var n := TokenLength(t);
      assert (t + ws)[..n] == t[..n];
      assert (t + ws)[n..] == t[n..] + ws;
      SplitTrailingSpace(t[n..], ws);
    }
  }

  /** Splitting ignores leading and trailing whitespace, so splitting the
      stripped text gives the same tokens as splitting the raw text. */
  lemma SplitStrip(s: string)
    ensures Split(Strip(s)) == Split(s)
  {
    var a, b := StripSplitsText(s);
    assert s == a + (Strip(s) + b);
    SplitLeadingSpace(a, Strip(s) + b);
    SplitTrailingSpace(Strip(s), b);
  }

  /** Every token of `str.split()` is non-empty, holds no whitespace, and is
      a contiguous piece of the text. */
  lemma {:induction false} SplitTokens(s: string)
    ensures forall w | w in Split(s) :: w != [] && Contains(s, w)
    ensures forall w, i | w in Split(s) && 0 <= i < |w| :: !IsSpace(w[i]) && w[i] in s
    decreases |s|
  {
    if s == [] {
    } else if IsSpace(s[0]) {
      SplitTokens(s[1..]);
      forall w | w in Split(s) ensures Contains(s, w) {
        ContainsInPart([s[0]], s[1..], [], w);
        assert [s[0]] + s[1..] + [] == s;
      }
      forall w, i | w in Split(s) && 0 <= i < |w| ensures w[i] in s {
        assert w[i] in s[1..];
      }
    } else {
      var n := TokenLength(s);
      SplitTokens(s[n..]);
      forall w | w in Split(s) ensures Contains(s, w) {
        if w == s[..n] {
          assert OccursAt(s, w, 0);
        } else {
          assert w in Split(s[n..]);
          ContainsInPart(s[..n], s[n..], [], w);
          assert s[..n] + s[n..] + [] == s;
        }
      }
      forall w, i | w in Split(s) && 0 <= i < |w| ensures !IsSpace(w[i]) && w[i] in s {
        if w == s[..n] {
          assert w[i] == s[i];
        } else {
          assert w in Split(s[n..]);
          assert w[i] in s[n..];
        }
      }
    }
  }

  /** An all-whitespace text has no tokens, and a text with a non-whitespace
      character has at least one. */
  lemma {:induction false} SplitEmpty(s: string)
    ensures Split(s) == [] <==> AllSpace(s)
    decreases |s|
  {
    if s != [] && IsSpace(s[0]) {
      SplitEmpty(s[1..]);
      if !AllSpace(s) {
        var i :| 0 <= i < |s| && !IsSpace(s[i]);
        assert s[1..][i - 1] == s[i];
      }
    }
  }
}
