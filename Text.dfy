/** The string operations the components call, restricted to ASCII:
    `trim()`, `toLowerCase()`, `includes(sub)`, `split(',')` and
    `join(sep)`. */
module Text {

  // ---------------------------------------------------------------------
  // Whitespace and trim()
  // ---------------------------------------------------------------------

  /** ASCII whitespace as `trim()` sees it: space, tab, line feed,
      vertical tab, form feed and carriage return. */
  predicate IsWhitespace(c: char) {
    c == ' ' || 9 <= c as int <= 13
  }

  predicate AllWhitespace(s: string) {
    forall k :: 0 <= k < |s| ==> IsWhitespace(s[k])
  }

  /** No whitespace at either end. */
  predicate IsTrimmed(s: string) {
    s == [] || (!IsWhitespace(s[0]) && !IsWhitespace(s[|s| - 1]))
  }

  /** The first index at or after `i` that does not hold whitespace (or
      `|s|` when there is none). */
  function SkipWhitespace(s: string, i: nat): (n: nat)
    requires i <= |s|
    ensures i <= n <= |s|
    ensures forall k :: i <= k < n ==> IsWhitespace(s[k])
    ensures n < |s| ==> !IsWhitespace(s[n])
    decreases |s| - i
  {
    if i < |s| && IsWhitespace(s[i]) then SkipWhitespace(s, i + 1) else i
  }

  /** Moving back from `j`, but not past `lo`, where the whitespace run
      that ends at `j` starts. */
  function SkipWhitespaceBack(s: string, lo: nat, j: nat): (n: nat)
    requires lo <= j <= |s|
    ensures lo <= n <= j
    ensures forall k :: n <= k < j ==> IsWhitespace(s[k])
    ensures lo < n ==> !IsWhitespace(s[n - 1])
    decreases j
  {
    if lo < j && IsWhitespace(s[j - 1]) then SkipWhitespaceBack(s, lo, j - 1) else j
  }

  /** `s.trim()`: the slice of `s` left once all whitespace at its front
      and at its back is cut off. The result has no whitespace at either
      end, and it is empty exactly when `s` is all whitespace. */
  function Trim(s: string): (r: string)
    ensures |r| <= |s|
    ensures exists i, j :: 0 <= i <= j <= |s| && r == s[i..j] && AllWhitespace(s[..i]) && AllWhitespace(s[j..])
    ensures IsTrimmed(r)
    ensures r == [] <==> AllWhitespace(s)
  {
    var i := SkipWhitespace(s, 0);
    var j := SkipWhitespaceBack(s, i, |s|);
    TrimSlice(s, i, j);
    s[i..j]
  }

  /** The slice between the two whitespace runs has the properties `Trim`
      promises. */
  lemma {:induction false} TrimSlice(s: string, i: nat, j: nat)
    requires i == SkipWhitespace(s, 0) && j == SkipWhitespaceBack(s, i, |s|)
    ensures AllWhitespace(s[..i]) && AllWhitespace(s[j..])
    ensures IsTrimmed(s[i..j])
    ensures s[i..j] == [] <==> AllWhitespace(s)
  {
    assert forall k :: 0 <= k < i ==> s[..i][k] == s[k];
    assert forall k :: 0 <= k < |s| - j ==> s[j..][k] == s[j + k];
    if i < j {
      assert s[i..j][0] == s[i] && s[i..j][j - i - 1] == s[j - 1];
    } else if i < |s| {
      assert false;
    }
  }

  /** `s.trim() !== ''`: holds exactly when `s` has a character that is
      not whitespace. */
  predicate NonBlank(s: string)
    ensures NonBlank(s) <==> exists k :: 0 <= k < |s| && !IsWhitespace(s[k])
  {
    Trim(s) != ""
  }

  /** Trimming an already trimmed string changes nothing. */
  lemma TrimTrimmed(s: string)
    requires IsTrimmed(s)
    ensures Trim(s) == s
  {
    if s != [] {
      assert SkipWhitespace(s, 0) == 0;
      assert SkipWhitespaceBack(s, 0, |s|) == |s|;
    }
  }

  /** `trim()` is idempotent. */
  lemma TrimIdempotent(s: string)
    ensures Trim(Trim(s)) == Trim(s)
  {
    TrimTrimmed(Trim(s));
  }

  /** A leading space makes no difference to `trim()`. */
  lemma {:induction false} TrimLeadingSpace(s: string)
    ensures Trim(" " + s) == Trim(s)
  {
    LeadingSpaceShiftsCut(s, SkipWhitespace(s, 0), SkipWhitespaceBack(s, SkipWhitespace(s, 0), |s|));
  }

  /** Behind a leading space, `Trim` cuts at the same places, one later. */
  lemma {:induction false} LeadingSpaceShiftsCut(s: string, i: nat, j: nat)
    requires i == SkipWhitespace(s, 0) && j == SkipWhitespaceBack(s, i, |s|)
    ensures SkipWhitespace(" " + s, 0) == i + 1
    ensures SkipWhitespaceBack(" " + s, i + 1, |s| + 1) == j + 1
    ensures (" " + s)[i + 1..j + 1] == s[i..j]
  {
    SkipShifts(' ', s, 0);
    SkipBackShifts(' ', s, i, |s|);
    ShiftedSlice(' ', s, i, j);
  }

  lemma ShiftedSlice(c: char, s: string, a: nat, b: nat)
    requires a <= b <= |s|
    ensures ([c] + s)[a + 1..b + 1] == s[a..b]
  {
  }

  /** Behind one more character, the forward skip from `k` ends one place
      later. */
  lemma {:induction false} SkipShifts(c: char, s: string, k: nat)
    requires k <= |s|
    ensures SkipWhitespace([c] + s, k + 1) == SkipWhitespace(s, k) + 1
    decreases |s| - k
  {
    if k < |s| {
      assert ([c] + s)[k + 1] == s[k];
      if IsWhitespace(s[k]) {
        SkipShifts(c, s, k + 1);
      }
    }
  }

  /** Behind one more character, the backward skip ends one place later. */
  lemma {:induction false} SkipBackShifts(c: char, s: string, lo: nat, j: nat)
    requires lo <= j <= |s|
    ensures SkipWhitespaceBack([c] + s, lo + 1, j + 1) == SkipWhitespaceBack(s, lo, j) + 1
    decreases j
  {
    if lo < j {
      assert ([c] + s)[j] == s[j - 1];
      if IsWhitespace(s[j - 1]) {
        SkipBackShifts(c, s, lo, j - 1);
      }
    }
  }

  // ---------------------------------------------------------------------
  // toLowerCase()
  // ---------------------------------------------------------------------

  function LowerChar(c: char): char {
    if 'A' <= c <= 'Z' then (c as int + 32) as char else c
  }

  /** `s.toLowerCase()`, character by character. */
  function Lower(s: string): (r: string)
    ensures |r| == |s|
    ensures forall k :: 0 <= k < |s| ==> r[k] == LowerChar(s[k])
  {
    seq(|s|, k requires 0 <= k < |s| => LowerChar(s[k]))
  }

  /** A lower-cased string holds no upper-case letter. */
  lemma LowerHasNoUpper(s: string)
    ensures forall k :: 0 <= k < |Lower(s)| ==> !('A' <= Lower(s)[k] <= 'Z')
  {
  }

  /** Lower-casing twice is lower-casing once. */
  lemma LowerIdempotent(s: string)
    ensures Lower(Lower(s)) == Lower(s)
  {
  }

  // ---------------------------------------------------------------------
  // includes(sub)
  // ---------------------------------------------------------------------

  /** `sub` occurs in `s` starting at position `i`. */
  predicate OccursAt(s: string, sub: string, i: int) {
    0 <= i && i + |sub| <= |s| && s[i..i + |sub|] == sub
  }

  /** Past the first position, `sub` occurs in `s` where it occurs in the
      tail of `s`, one position earlier. */
  lemma OccursInTail(s: string, sub: string)
    requires s != []
    ensures forall i :: 1 <= i ==> (OccursAt(s, sub, i) <==> OccursAt(s[1..], sub, i - 1))
    ensures forall j :: OccursAt(s[1..], sub, j) ==> OccursAt(s, sub, j + 1)
  {
    forall i | 1 <= i ensures OccursAt(s, sub, i) <==> OccursAt(s[1..], sub, i - 1) {
      if i + |sub| <= |s| {
        assert s[1..][i - 1..i - 1 + |sub|] == s[i..i + |sub|];
      }
    }
  }

  /** `s.includes(sub)`: tries every start position from the left, and
      holds exactly when `sub` occurs somewhere in `s`. */
  function Includes(s: string, sub: string): (r: bool)
    ensures r <==> exists i :: OccursAt(s, sub, i)
    decreases |s|
  {
    if |sub| <= |s| && s[..|sub|] == sub then
      assert OccursAt(s, sub, 0);
      true
    else if s == [] then
      false
    else
      OccursInTail(s, sub);
      assert !OccursAt(s, sub, 0);
      Includes(s[1..], sub)
  }

  /** A string cannot include a substring holding a character it lacks. */
  lemma {:induction false} IncludesNeedsEveryChar(s: string, sub: string, c: char)
    requires c in sub && c !in s
    ensures !Includes(s, sub)
    decreases |s|
  {
    if s != [] && !(|sub| <= |s| && s[..|sub|] == sub) {
      IncludesNeedsEveryChar(s[1..], sub, c);
    }
  }

  /** Every string includes the empty string. */
  lemma IncludesEmpty(s: string)
    ensures Includes(s, "")
  {
  }

  // ---------------------------------------------------------------------
  // split(sep) and join(sep)
  // ---------------------------------------------------------------------

  /** Position of the first `c` in `s`, or `|s|` when there is none. */
  function IndexOf(s: string, c: char): (k: nat)
    ensures k <= |s|
    ensures k < |s| ==> s[k] == c
    ensures forall i :: 0 <= i < k ==> s[i] != c
    decreases |s|
  {
    if s == [] then 0
    else if s[0] == c then 0
    else 1 + IndexOf(s[1..], c)
  }

  /** `s.split(sep)` for a one-character separator: the pieces between
      separators, from left to right; there is always at least one piece
      and no piece holds the separator. */
  function Split(s: string, sep: char): (r: seq<string>)
    ensures |r| >= 1
    ensures forall i :: 0 <= i < |r| ==> sep !in r[i]
    decreases |s|
  {
    var k := IndexOf(s, sep);
    if k == |s| then [s] else [s[..k]] + Split(s[k + 1..], sep)
  }

  /** Every character of every piece comes from the split string. */
  lemma {:induction false} SplitPiecesFromText(s: string, sep: char, i: nat, c: char)
    requires i < |Split(s, sep)| && c in Split(s, sep)[i]
    ensures c in s
    decreases |s|
  {
    var k := IndexOf(s, sep);
    if k < |s| && i > 0 {
      SplitPiecesFromText(s[k + 1..], sep, i - 1, c);
    }
  }

  /** `xs.join(sep)`: the elements with `sep` between neighbours. The text
      starts with the first element, and each of its characters comes from
      an element or from the separator. */
  function Join(xs: seq<string>, sep: string): (r: string)
    ensures |xs| >= 1 ==> xs[0] <= r
    ensures forall c :: c in r ==> c in sep || exists k :: 0 <= k < |xs| && c in xs[k]
    decreases |xs|
  {
    if |xs| == 0 then ""
    else if |xs| == 1 then xs[0]
    else xs[0] + sep + Join(xs[1..], sep)
  }

  /** Joining the pieces of a split with the same separator gives back the
      original string. */
  lemma {:induction false} JoinSplit(s: string, sep: char)
    ensures Join(Split(s, sep), [sep]) == s
    decreases |s|
  {
    var k := IndexOf(s, sep);
    if k < |s| {
      var rest := Split(s[k + 1..], sep);
      JoinSplit(s[k + 1..], sep);
      assert ([s[..k]] + rest)[1..] == rest;
      assert s == s[..k] + [sep] + s[k + 1..];
    }
  }

  /** A string without the separator splits into itself alone. */
  lemma SplitWithoutSeparator(s: string, sep: char)
    requires sep !in s
    ensures Split(s, sep) == [s]
  {
  }

  /** The first piece ends at the first separator. */
  lemma SplitAtFirst(a: string, sep: char, b: string)
    requires sep !in a
    ensures Split(a + [sep] + b, sep) == [a] + Split(b, sep)
  {
    var s := a + [sep] + b;
    var k := IndexOf(s, sep);
    assert s[|a|] == sep;
    assert k == |a|;
    assert s[..k] == a;
    assert s[k + 1..] == b;
  }

  /** Splitting what was joined from separator-free pieces gives back the
      pieces. */
  lemma {:induction false} SplitJoin(xs: seq<string>, sep: char)
    requires |xs| >= 1
    requires forall i :: 0 <= i < |xs| ==> sep !in xs[i]
    ensures Split(Join(xs, [sep]), sep) == xs
    decreases |xs|
  {
    if |xs| == 1 {
      SplitWithoutSeparator(xs[0], sep);
    } else {
      SplitJoin(xs[1..], sep);
      SplitAtFirst(xs[0], sep, Join(xs[1..], [sep]));
      assert xs == [xs[0]] + xs[1..];
    }
  }
}
