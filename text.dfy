/** ASCII models of the Python string operations that the scoring and plan code
    relies on: str.lower(), the substring test `pat in text`, str.strip() and
    str.split() called without arguments. */
module Text {

  /** Python's str.isspace() restricted to ASCII: tab, line feed, vertical tab,
      form feed, carriage return (9..13), the four information separators
      (0x1C..0x1F) and the space character (32). */
  predicate IsSpace(c: char) {
    (9 <= c as int <= 13) || (28 <= c as int <= 32)
  }

  /** The characters IsSpace accepts, listed one by one. */
  lemma AsciiWhitespace(c: char)
    ensures IsSpace(c) <==> c in {'\t', '\n', '\U{0B}', '\U{0C}', '\r', '\U{1C}', '\U{1D}', '\U{1E}', '\U{1F}', ' '}
  {
  }

  predicate NoSpace(s: string) {
    forall i :: 0 <= i < |s| ==> !IsSpace(s[i])
  }

  predicate AllSpace(s: string) {
    forall i :: 0 <= i < |s| ==> IsSpace(s[i])
  }

  /** A token of str.split(): non-empty and free of whitespace. */
  predicate IsWord(w: string) {
    w != [] && NoSpace(w)
  }

  predicate IsUpper(c: char) {
    'A' <= c <= 'Z'
  }

  /** ASCII lower-casing of one character. */
  function LowerChar(c: char): (d: char)
    ensures !IsUpper(d)
    ensures IsUpper(c) ==> d as int == c as int + 32
    ensures !IsUpper(c) ==> d == c
    ensures IsSpace(d) == IsSpace(c)
  {
    if IsUpper(c) then (c as int + 32) as char else c
  }

  /** str.lower() on ASCII text: position by position, and nothing else moves. */
  function Lower(s: string): (r: string)
    ensures |r| == |s|
    ensures forall i :: 0 <= i < |s| ==> r[i] == LowerChar(s[i])
  {
    if s == [] then [] else [LowerChar(s[0])] + Lower(s[1..])
  }

  /** Text with no upper-case letter is its own lower-case form. */
  lemma LowerKeepsLowerCase(s: string)
    requires forall i :: 0 <= i < |s| ==> !IsUpper(s[i])
    ensures Lower(s) == s
  {
  }

  /** Lower-casing a capitalised word whose rest is lower case changes only
      its first character. */
  lemma LowerCapitalised(c: char, r: string)
    requires forall i :: 0 <= i < |r| ==> !IsUpper(r[i])
    ensures Lower([c] + r) == [LowerChar(c)] + r
  {
    LowerKeepsLowerCase(r);
    assert ([c] + r)[1..] == r;
  }

  /** `pat` occurs in `text` starting at index `i`. */
  ghost predicate OccursAt(text: string, pat: string, i: int) {
    0 <= i <= |text| - |pat| && text[i..i + |pat|] == pat
  }

  /** Python's `pat in text` on strings: a substring test, under which the empty
      string occurs in every text. */
  function Contains(text: string, pat: string): (b: bool)
    ensures b <==> exists i :: OccursAt(text, pat, i)
    decreases |text|
  {
    if |pat| > |text| then false
    else if pat <= text then
      assert OccursAt(text, pat, 0);
      true
    else
      ContainsStep(text, pat);
      Contains(text[1..], pat)
  }

  /** An occurrence in a text that does not start with `pat` is an occurrence in
      its tail, shifted by one. */
  lemma ContainsStep(text: string, pat: string)
    requires |pat| <= |text| && !(pat <= text)
    ensures (exists i :: OccursAt(text, pat, i)) <==> (exists j :: OccursAt(text[1..], pat, j))
  {
    if i :| OccursAt(text, pat, i) {
      assert i != 0;
      assert OccursAt(text[1..], pat, i - 1) by {
        assert text[1..][i - 1..i - 1 + |pat|] == text[i..i + |pat|];
      }
    }
    if j :| OccursAt(text[1..], pat, j) {
      assert text[1..][j..j + |pat|] == text[j + 1..j + 1 + |pat|];
      assert OccursAt(text, pat, j + 1);
    }
  }

  /** A string occurs in any text built around it. */
  lemma ContainsInfix(a: string, pat: string, b: string)
    ensures Contains(a + pat + b, pat)
  {
    assert (a + pat + b)[|a|..|a| + |pat|] == pat;
    assert OccursAt(a + pat + b, pat, |a|);
  }

  /** Occurrence is transitive: a piece of a piece of `c` is a piece of `c`. */
  lemma ContainsTransitive(a: string, b: string, c: string)
    requires Contains(b, a) && Contains(c, b)
    ensures Contains(c, a)
  {
    var i :| OccursAt(b, a, i);
    var j :| OccursAt(c, b, j);
    forall k | 0 <= k < |a|
      ensures c[j + i + k] == a[k]
    {
      assert a[k] == b[i..i + |a|][k] == b[i + k];
      assert b[i + k] == c[j..j + |b|][i + k];
    }
    assert c[j + i..j + i + |a|] == a;
    assert OccursAt(c, a, j + i);
  }

  /** Lower-casing keeps every whitespace character where it was. */
  lemma LowerAllSpace(s: string)
    ensures AllSpace(Lower(s)) <==> AllSpace(s)
  {
    if !AllSpace(s) {
      var k :| 0 <= k < |s| && !IsSpace(s[k]);
      assert !IsSpace(Lower(s)[k]);
    }
  }

  /** The first index at or after `i` that holds no whitespace (or |s|). */
  function SkipSpace(s: string, i: nat): (j: nat)
    requires i <= |s|
    ensures i <= j <= |s|
    ensures j < |s| ==> !IsSpace(s[j])
    decreases |s| - i
  {
    if i < |s| && IsSpace(s[i]) then SkipSpace(s, i + 1) else i
  }

  /** Everything SkipSpace steps over is whitespace. */
  lemma {:induction false} SkipSpaceSkipsSpace(s: string, i: nat)
    requires i <= |s|
    ensures forall k :: i <= k < SkipSpace(s, i) ==> IsSpace(s[k])
    decreases |s| - i
  {
    if i < |s| && IsSpace(s[i]) {
      SkipSpaceSkipsSpace(s, i + 1);
    }
  }

  /** Walking down from `j`, the index just past the last non-whitespace
      character at or after `lo` (or `lo`). */
  function TrimEnd(s: string, lo: nat, j: nat): (e: nat)
    requires lo <= j <= |s|
    ensures lo <= e <= j
    ensures forall k :: e <= k < j ==> IsSpace(s[k])
    ensures e > lo ==> !IsSpace(s[e - 1])
    decreases j
  {
    if j > lo && IsSpace(s[j - 1]) then TrimEnd(s, lo, j - 1) else j
  }

  /** The first index at or after `i` that holds whitespace (or |s|). */
  function WordEnd(s: string, i: nat): (j: nat)
    requires i <= |s|
    ensures i <= j <= |s|
    ensures i < |s| && !IsSpace(s[i]) ==> i < j
    ensures j < |s| ==> IsSpace(s[j])
    decreases |s| - i
  {
    if i < |s| && !IsSpace(s[i]) then WordEnd(s, i + 1) else i
  }

  /** Everything WordEnd steps over is non-whitespace. */
  lemma {:induction false} WordEndSkipsWord(s: string, i: nat)
    requires i <= |s|
    ensures forall k :: i <= k < WordEnd(s, i) ==> !IsSpace(s[k])
    decreases |s| - i
  {
    if i < |s| && !IsSpace(s[i]) {
      WordEndSkipsWord(s, i + 1);
    }
  }

  /** `r` is what is left of `s` once all leading and trailing whitespace is cut
      off: it sits in `s` between the indices `i` and `j`, only whitespace lies
      outside them, and it neither starts nor ends with whitespace. */
  ghost predicate StrippedTo(s: string, r: string, i: int, j: int) {
    0 <= i <= j <= |s| && r == s[i..j] &&
    (forall k :: 0 <= k < i ==> IsSpace(s[k])) &&
    (forall k :: j <= k < |s| ==> IsSpace(s[k])) &&
    (r == [] || (!IsSpace(r[0]) && !IsSpace(r[|r| - 1])))
  }

  /** Python's str.strip() with no argument. */
  function Strip(s: string): (r: string)
    ensures exists i, j :: StrippedTo(s, r, i, j)
    ensures r == [] <==> AllSpace(s)
  {
    var i := SkipSpace(s, 0);
    SkipSpaceSkipsSpace(s, 0);
    var j := TrimEnd(s, i, |s|);
    assert StrippedTo(s, s[i..j], i, j);
    assert i < |s| ==> s[i..j][0] == s[i];
    s[i..j]
  }

  /** The non-whitespace characters of `s` from index `i` on, in order. */
  function NonSpace(s: string, i: nat): (r: string)
    requires i <= |s|
    ensures NoSpace(r)
    decreases |s| - i
  {
    if i == |s| then []
    else (if IsSpace(s[i]) then [] else [s[i]]) + NonSpace(s, i + 1)
  }

  /** Concatenation of a list of strings ("".join). */
  function Flatten(ws: seq<string>): string {
    if ws == [] then [] else ws[0] + Flatten(ws[1..])
  }

  /** Skipping whitespace loses no non-whitespace character. */
  lemma {:induction false} NonSpaceSkip(s: string, i: nat, j: nat)
    requires i <= j <= |s|
    requires forall k :: i <= k < j ==> IsSpace(s[k])
    ensures NonSpace(s, i) == NonSpace(s, j)
    decreases j - i
  {
    if i < j {
      NonSpaceSkip(s, i + 1, j);
    }
  }

  /** A whitespace-free run is kept whole. */
  lemma {:induction false} NonSpaceWord(s: string, i: nat, j: nat)
    requires i <= j <= |s|
    requires forall k :: i <= k < j ==> !IsSpace(s[k])
    ensures NonSpace(s, i) == s[i..j] + NonSpace(s, j)
    decreases j - i
  {
    if i < j {
      NonSpaceWord(s, i + 1, j);
      calc {
        NonSpace(s, i);
        [s[i]] + NonSpace(s, i + 1);
        [s[i]] + (s[i + 1..j] + NonSpace(s, j));
        { assert [s[i]] + s[i + 1..j] == s[i..j]; }
        s[i..j] + NonSpace(s, j);
      }
    } else {
      assert s[i..j] == [];
    }
  }

  /** The tokens str.split() finds in `s` from index `i` on. */
  function SplitFrom(s: string, i: nat): seq<string>
    requires i <= |s|
    decreases |s| - i
  {
    var a := SkipSpace(s, i);
    if a == |s| then
      []
    else
      var b := WordEnd(s, a);
      [s[a..b]] + SplitFrom(s, b)
  }

  /** The tokens from index `i` are words that together spell the
      non-whitespace characters from `i` on, and there are none exactly when
      only whitespace follows. */
  lemma {:induction false} SplitFromFacts(s: string, i: nat)
    requires i <= |s|
    ensures var words := SplitFrom(s, i);
      (forall k :: 0 <= k < |words| ==> IsWord(words[k])) &&
      Flatten(words) == NonSpace(s, i) &&
      (words == [] <==> forall k :: i <= k < |s| ==> IsSpace(s[k]))
    decreases |s| - i
  {
    var a := SkipSpace(s, i);
    SkipSpaceSkipsSpace(s, i);
    NonSpaceSkip(s, i, a);
    if a < |s| {
      var b := WordEnd(s, a);
      WordEndSkipsWord(s, a);
      NonSpaceWord(s, a, b);
      SplitFromFacts(s, b);
      var rest := SplitFrom(s, b);
      assert SplitFrom(s, i) == [s[a..b]] + rest;
      assert ([s[a..b]] + rest)[1..] == rest;
    }
  }

  /** Python's str.split() with no argument: the maximal runs of non-whitespace
      characters. No token is empty or holds whitespace, together they spell
      exactly the non-whitespace characters of `s`, and there are none only
      when `s` is blank. */
  function Split(s: string): (words: seq<string>)
    ensures forall k :: 0 <= k < |words| ==> IsWord(words[k])
    ensures Flatten(words) == NonSpace(s, 0)
    ensures words == [] <==> AllSpace(s)
  {
    SplitFromFacts(s, 0);
    SplitFrom(s, 0)
  }

  /** Python's " ".join: the strings separated by single spaces. */
  function JoinSpace(ws: seq<string>): (r: string)
    ensures ws != [] ==> |r| == |Flatten(ws)| + |ws| - 1
  {
    if ws == [] then []
    else if |ws| == 1 then ws[0]
    else ws[0] + " " + JoinSpace(ws[1..])
  }

  lemma {:induction false} SkipSpaceShift(p: string, r: string, i: nat)
    requires i <= |r|
    ensures SkipSpace(p + r, |p| + i) == |p| + SkipSpace(r, i)
    decreases |r| - i
  {
    if i < |r| {
      assert (p + r)[|p| + i] == r[i];
      if IsSpace(r[i]) {
        SkipSpaceShift(p, r, i + 1);
      }
    }
  }

  lemma {:induction false} WordEndShift(p: string, r: string, i: nat)
    requires i <= |r|
    ensures WordEnd(p + r, |p| + i) == |p| + WordEnd(r, i)
    decreases |r| - i
  {
    if i < |r| {
      assert (p + r)[|p| + i] == r[i];
      if !IsSpace(r[i]) {
        WordEndShift(p, r, i + 1);
      }
    }
  }

  lemma SliceShift(p: string, r: string, a: nat, b: nat)
    requires a <= b <= |r|
    ensures (p + r)[|p| + a..|p| + b] == r[a..b]
  {
  }

  /** Splitting is unaffected by text in front of the starting index. */
  lemma {:induction false} SplitFromShift(p: string, r: string, i: nat)
    requires i <= |r|
    ensures SplitFrom(p + r, |p| + i) == SplitFrom(r, i)
    decreases |r| - i
  {
    SkipSpaceShift(p, r, i);
    var a := SkipSpace(r, i);
    if a == |r| {
      SplitFromAtEnd(p + r, |p| + i);
      SplitFromAtEnd(r, i);
    } else {
      WordEndShift(p, r, a);
      var b := WordEnd(r, a);
      SliceShift(p, r, a, b);
      SplitFromShift(p, r, b);
      SplitFromShiftStep(p + r, r, |p|, i, a, b);
    }
  }

  lemma SplitFromAtEnd(s: string, i: nat)
    requires i <= |s| && SkipSpace(s, i) == |s|
    ensures SplitFrom(s, i) == []
  {
  }

  /** One token of the induction in SplitFromShift, with the shifted text
      abstracted to `s`. */
  lemma SplitFromShiftStep(s: string, r: string, n: nat, i: nat, a: nat, b: nat)
    requires |s| == n + |r| && i <= a < b <= |r|
    requires SkipSpace(s, n + i) == n + a && SkipSpace(r, i) == a
    requires WordEnd(s, n + a) == n + b && WordEnd(r, a) == b
    requires s[n + a..n + b] == r[a..b]
    requires SplitFrom(s, n + b) == SplitFrom(r, b)
    ensures SplitFrom(s, n + i) == SplitFrom(r, i)
  {
    SplitFromCons(s, n + i, n + a, n + b);
    SplitFromCons(r, i, a, b);
  }

  /** A run of non-whitespace ending at whitespace or at the end is one token. */
  lemma {:induction false} WordEndAt(s: string, i: nat, j: nat)
    requires i <= j <= |s|
    requires forall k :: i <= k < j ==> !IsSpace(s[k])
    requires j == |s| || IsSpace(s[j])
    ensures WordEnd(s, i) == j
    decreases j - i
  {
    if i < j {
      WordEndAt(s, i + 1, j);
    }
  }

  /** Splitting a word followed by a space and more text yields the word, then
      the tokens of the rest. */
  lemma SplitWordSpace(w: string, r: string)
    requires IsWord(w)
    ensures Split(w + " " + r) == [w] + Split(r)
  {
    var s := w + " " + r;
    assert s[0] == w[0];
    assert SkipSpace(s, 0) == 0;
    WordEndAt(s, 0, |w|);
    assert s[0..|w|] == w;
    assert s == w + (" " + r);
    SplitFromShift(w, " " + r, 0);
    assert SplitFrom(" " + r, 0) == SplitFrom(" " + r, 1);
    assert " " + r == [' '] + r;
    SplitFromShift([' '], r, 0);
  }

  lemma SplitWord(w: string)
    requires IsWord(w)
    ensures Split(w) == [w]
  {
    assert SkipSpace(w, 0) == 0;
    WordEndAt(w, 0, |w|);
    assert w[0..|w|] == w;
    assert SplitFrom(w, |w|) == [];
  }

  /** Round trip: splitting words joined by single spaces gives the words back. */
  lemma {:induction false} SplitJoin(ws: seq<string>)
    requires forall k :: 0 <= k < |ws| ==> IsWord(ws[k])
    ensures Split(JoinSpace(ws)) == ws
  {
    if ws == [] {
    } else if |ws| == 1 {
      SplitWord(ws[0]);
    } else {
      SplitJoin(ws[1..]);
      SplitWordSpace(ws[0], JoinSpace(ws[1..]));
    }
  }

  /** SkipSpace inside `a` is unchanged by whitespace-led text after `a`, and
      when it runs off the end of `a` it continues into that text. */
  lemma {:induction false} SkipSpacePrefix(a: string, t: string, i: nat)
    requires i <= |a| && t != [] && IsSpace(t[0])
    ensures SkipSpace(a, i) < |a| ==> SkipSpace(a + t, i) == SkipSpace(a, i)
    ensures SkipSpace(a, i) == |a| ==> SkipSpace(a + t, i) == SkipSpace(a + t, |a|)
    decreases |a| - i
  {
    if i < |a| {
      assert (a + t)[i] == a[i];
      if IsSpace(a[i]) {
        SkipSpacePrefix(a, t, i + 1);
      }
    }
  }

  /** A token inside `a` ends where it did once whitespace-led text follows. */
  lemma {:induction false} WordEndPrefix(a: string, t: string, i: nat)
    requires i <= |a| && t != [] && IsSpace(t[0])
    ensures WordEnd(a + t, i) == WordEnd(a, i)
    decreases |a| - i
  {
    if i < |a| {
      assert (a + t)[i] == a[i];
      if !IsSpace(a[i]) {
        WordEndPrefix(a, t, i + 1);
      }
    } else {
      assert (a + t)[i] == t[0];
    }
  }

  lemma SlicePrefix(a: string, t: string, x: nat, y: nat)
    requires x <= y <= |a|
    ensures (a + t)[x..y] == a[x..y]
  {
  }

  lemma SplitFromSameStart(s: string, i: nat, j: nat)
    requires i <= |s| && j <= |s| && SkipSpace(s, i) == SkipSpace(s, j)
    ensures SplitFrom(s, i) == SplitFrom(s, j)
  {
  }

  /** The tokens of `a + t`, for `t` starting with whitespace, are those of `a`
      followed by those found from the end of `a` on. */
  lemma {:induction false} SplitFromPrefix(a: string, t: string, i: nat)
    requires i <= |a| && t != [] && IsSpace(t[0])
    ensures SplitFrom(a + t, i) == SplitFrom(a, i) + SplitFrom(a + t, |a|)
    decreases |a| - i
  {
    var s := a + t;
    SkipSpacePrefix(a, t, i);
    var x := SkipSpace(a, i);
    if x == |a| {
      SplitFromSameStart(s, i, |a|);
      assert SplitFrom(a, i) == [];
    } else {
      WordEndPrefix(a, t, x);
      var y := WordEnd(a, x);
      SlicePrefix(a, t, x, y);
      SplitFromPrefix(a, t, y);
      SplitFromPrefixStep(s, a, i, x, y, SplitFrom(s, |a|));
    }
  }

  /** One token of the induction in SplitFromPrefix, with `a + t` abstracted
      to `s`. */
  lemma SplitFromPrefixStep(s: string, a: string, i: nat, x: nat, y: nat, rest: seq<string>)
    requires i <= x < y <= |a| <= |s|
    requires SkipSpace(s, i) == x && SkipSpace(a, i) == x
    requires WordEnd(s, x) == y && WordEnd(a, x) == y
    requires s[x..y] == a[x..y]
    requires SplitFrom(s, y) == SplitFrom(a, y) + rest
    ensures SplitFrom(s, i) == SplitFrom(a, i) + rest
  {
    SplitFromCons(s, i, x, y);
    SplitFromCons(a, i, x, y);
    ConsAssoc(a[x..y], SplitFrom(a, y), rest);
  }

  /** SplitFrom takes the token between the skipped whitespace and the next
      whitespace, then continues after it. */
  lemma SplitFromCons(s: string, i: nat, x: nat, y: nat)
    requires i <= x < y <= |s| && SkipSpace(s, i) == x && WordEnd(s, x) == y
    ensures SplitFrom(s, i) == [s[x..y]] + SplitFrom(s, y)
  {
  }

  lemma ConsAssoc(w: string, u: seq<string>, v: seq<string>)
    ensures [w] + (u + v) == ([w] + u) + v
  {
  }

  /** No token spans a whitespace character: splitting at any whitespace
      character and splitting both sides gives the same tokens. With SplitWord
      and the blank case this fixes every token, so the tokens are the maximal
      runs of non-whitespace. */
  lemma SplitAtSpace(a: string, c: char, b: string)
    requires IsSpace(c)
    ensures Split(a + [c] + b) == Split(a) + Split(b)
  {
    var s := a + [c] + b;
    assert s == a + ([c] + b);
    SplitFromPrefix(a, [c] + b, 0);
    assert s[|a|] == c;
    assert SkipSpace(s, |a|) == SkipSpace(s, |a| + 1);
    SplitFromSameStart(s, |a|, |a| + 1);
    assert s == (a + [c]) + b;
    SplitFromShift(a + [c], b, 0);
  }

  /** A text lacking one of the characters of `pat` does not contain `pat`. */
  lemma MissingCharNotContained(text: string, pat: string, k: nat)
    requires k < |pat| && pat[k] !in text
    ensures !Contains(text, pat)
  {
    if i :| OccursAt(text, pat, i) {
      assert false;
    }
  }

  /** The first token of str.split() is a piece of the text itself. */
  lemma FirstWordOccurs(s: string)
    requires Split(s) != []
    ensures IsWord(Split(s)[0]) && Contains(s, Split(s)[0])
  {
    var i, j := FirstTokenSpan(s);
    assert OccursAt(s, s[i..j], i);
  }

  /** The first token is maximal: it starts after nothing but whitespace and
      runs up to the next whitespace character or the end of the text. */
  lemma FirstTokenSpan(s: string) returns (i: nat, j: nat)
    requires Split(s) != []
    ensures i < j <= |s| && Split(s)[0] == s[i..j]
    ensures forall k :: 0 <= k < i ==> IsSpace(s[k])
    ensures j == |s| || IsSpace(s[j])
  {
    i := SkipSpace(s, 0);
    SkipSpaceSkipsSpace(s, 0);
    j := WordEnd(s, i);
    SplitFromCons(s, 0, i, j);
  }

  /** A text has a first token exactly when stripping it leaves something. */
  lemma SplitEmptyIffStripEmpty(s: string)
    ensures Split(s) == [] <==> Strip(s) == []
  {
  }
}
