/** The string primitives the server relies on: Rust's `char::is_whitespace`,
    `str::split_whitespace`, `str::trim` and `str::trim_end_matches(char)`.
    The operations the server calls (`SplitWhitespace`, `Trim`, `TrimEndBy`)
    carry contracts stated through the reference definitions below
    (`RemoveWhitespace`, `Concat`, `JoinSpaces`, `SpanLength`), and the
    lemmas pin `SplitWhitespace` down on every input. */
module Text {

  /** Rust's `char::is_whitespace`: the characters carrying the Unicode
      `White_Space` property. */
  predicate IsWhitespace(c: char) {
    || ('\t' <= c <= '\r')
    || c == ' '
    || c == '\U{0085}'
    || c == '\U{00A0}'
    || c == '\U{1680}'
    || ('\U{2000}' <= c <= '\U{200A}')
    || c == '\U{2028}'
    || c == '\U{2029}'
    || c == '\U{202F}'
    || c == '\U{205F}'
    || c == '\U{3000}'
  }

  predicate IsWordChar(c: char) {
    !IsWhitespace(c)
  }

  /** Every character of `s` is whitespace (vacuously so for ""). */
  predicate IsBlank(s: string) {
    forall i :: 0 <= i < |s| ==> IsWhitespace(s[i])
  }

  /** No character of `s` is whitespace. */
  predicate NoWhitespace(s: string) {
    forall i :: 0 <= i < |s| ==> !IsWhitespace(s[i])
  }

  /** A token `split_whitespace` can produce: non-empty and whitespace-free. */
  predicate IsWord(w: string) {
    w != [] && NoWhitespace(w)
  }

  /** The length of the longest prefix of `s` whose characters all satisfy `p`. */
  function SpanLength(s: string, p: char -> bool): (n: nat)
    ensures n <= |s|
    ensures forall i :: 0 <= i < n ==> p(s[i])
    ensures n < |s| ==> !p(s[n])
  {
    if |s| == 0 || !p(s[0]) then 0 else 1 + SpanLength(s[1..], p)
  }

  /** `s` with every character satisfying `drop` removed from its end
      (`str::trim_end_matches` with a character pattern). */
  function TrimEndBy(s: string, drop: char -> bool): (r: string)
    ensures |r| <= |s| && r == s[..|r|]
    ensures forall i :: |r| <= i < |s| ==> drop(s[i])
    ensures r != [] ==> !drop(r[|r| - 1])
  {
    if |s| > 0 && drop(s[|s| - 1]) then TrimEndBy(s[..|s| - 1], drop) else s
  }

  /** Rust's `str::trim`: `s` without its leading and trailing whitespace.
      The result is the slice of `s` that starts after the leading whitespace
      and leaves only whitespace behind it; it is empty exactly when `s` is
      blank, and otherwise starts and ends with a non-whitespace character. */
  function Trim(s: string): (r: string)
    ensures var i := SpanLength(s, IsWhitespace);
            i + |r| <= |s| && r == s[i..i + |r|] && IsBlank(s[i + |r|..])
    ensures r == [] <==> IsBlank(s)
    ensures r != [] ==> !IsWhitespace(r[0]) && !IsWhitespace(r[|r| - 1])
  {
    TrimEndBy(s[SpanLength(s, IsWhitespace)..], IsWhitespace)
  }

  /** The characters of `s` that are not whitespace, in their original order. */
  function RemoveWhitespace(s: string): string {
    if |s| == 0 then []
    else (if IsWhitespace(s[0]) then [] else [s[0]]) + RemoveWhitespace(s[1..])
  }

  /** The tokens of `ts` glued together with no separator. */
  function Concat(ts: seq<string>): string {
    if |ts| == 0 then [] else ts[0] + Concat(ts[1..])
  }

  /** The tokens of `ts` joined by a single space. */
  function JoinSpaces(ts: seq<string>): string {
    if |ts| == 0 then []
    else if |ts| == 1 then ts[0]
    else ts[0] + " " + JoinSpaces(ts[1..])
  }

  /** Rust's `str::split_whitespace`: the maximal whitespace-free runs of `s`,
      in order. Every token is a non-empty word, and gluing the tokens back
      together yields exactly the non-whitespace characters of `s`. */
  function SplitWhitespace(s: string): (r: seq<string>)
    ensures forall k :: 0 <= k < |r| ==> IsWord(r[k])
    ensures Concat(r) == RemoveWhitespace(s)
    decreases |s|
  {
    if |s| == 0 then []
    else if IsWhitespace(s[0]) then SplitWhitespace(s[1..])
    else
      var n := SpanLength(s, IsWordChar);
      var rest := SplitWhitespace(s[n..]);
      assert s == s[..n] + s[n..];
      RemoveWhitespaceAppend(s[..n], s[n..]);
      RemoveWhitespaceOfWord(s[..n]);
      assert ([s[..n]] + rest)[1..] == rest;
      [s[..n]] + rest
  }

  lemma {:induction false} RemoveWhitespaceAppend(a: string, b: string)
    ensures RemoveWhitespace(a + b) == RemoveWhitespace(a) + RemoveWhitespace(b)
    decreases |a|
  {
    if |a| > 0 {
      assert (a + b)[1..] == a[1..] + b;
      RemoveWhitespaceAppend(a[1..], b);
    } else {
      assert a + b == b;
    }
  }

  lemma {:induction false} RemoveWhitespaceOfWord(w: string)
    requires NoWhitespace(w)
    ensures RemoveWhitespace(w) == w
    decreases |w|
  {
    if |w| > 0 {
      RemoveWhitespaceOfWord(w[1..]);
      assert w == [w[0]] + w[1..];
    }
  }

  /** `split_whitespace` yields no token exactly when the input is blank. */
  lemma {:induction false} SplitEmptyIffBlank(s: string)
    ensures SplitWhitespace(s) == [] <==> IsBlank(s)
    decreases |s|
  {
    if |s| > 0 {
      SplitEmptyIffBlank(s[1..]);
      if IsWhitespace(s[0]) {
        assert IsBlank(s) <==> IsBlank(s[1..]) by {
          if IsBlank(s[1..]) {
            forall i | 0 <= i < |s| ensures IsWhitespace(s[i]) {
              if i > 0 { assert s[i] == s[1..][i - 1]; }
            }
          }
        }
      }
    }
  }

  /** A single word splits into itself. */
  lemma {:induction false} SplitWord(w: string)
    requires IsWord(w)
    ensures SplitWhitespace(w) == [w]
  {
    var n := SpanLength(w, IsWordChar);
    assert !IsWhitespace(w[0]);
    assert n == |w|;
    assert w[..n] == w;
    assert w[n..] == [];
  }

  /** Splitting distributes over a whitespace character: what lies on either
      side of it is split independently. Together with `SplitWord` and
      `SplitEmptyIffBlank` this pins down `SplitWhitespace` completely. */
  lemma {:induction false} SplitAtWhitespace(a: string, c: char, b: string)
    requires IsWhitespace(c)
    ensures SplitWhitespace(a + [c] + b) == SplitWhitespace(a) + SplitWhitespace(b)
    decreases |a|
  {
    var s := a + [c] + b;
    if |a| == 0 {
      assert s[1..] == b;
    } else if IsWhitespace(a[0]) {
      assert s[1..] == a[1..] + [c] + b;
      SplitAtWhitespace(a[1..], c, b);
    } else {
      var n := SpanLength(s, IsWordChar);
      assert s[|a|] == c;
      SpanOfPrefix(a, s, n);
      assert s[..n] == a[..n];
      assert s[n..] == a[n..] + [c] + b;
      SplitAtWhitespace(a[n..], c, b);
    }
  }

  /** A span that ends inside a prefix of `s` is also the span of that prefix. */
  lemma SpanOfPrefix(a: string, s: string, n: nat)
    requires |a| <= |s| && a == s[..|a|]
    requires n == SpanLength(s, IsWordChar) && 0 < n <= |a|
    ensures SpanLength(a, IsWordChar) == n
    decreases |a|
  {
    if n > 1 {
      SpanOfPrefix(a[1..], s[1..], n - 1);
    }
  }

  /** Round trip: words joined by single spaces split back into the same words. */
  lemma {:induction false} SplitJoin(ts: seq<string>)
    requires forall k :: 0 <= k < |ts| ==> IsWord(ts[k])
    ensures SplitWhitespace(JoinSpaces(ts)) == ts
    decreases |ts|
  {
    if |ts| == 0 {
    } else if |ts| == 1 {
      SplitWord(ts[0]);
    } else {
      SplitJoin(ts[1..]);
      SplitWord(ts[0]);
      assert JoinSpaces(ts) == ts[0] + [' '] + JoinSpaces(ts[1..]);
      SplitAtWhitespace(ts[0], ' ', JoinSpaces(ts[1..]));
      assert ts == [ts[0]] + ts[1..];
    }
  }

  /** Trimming is idempotent: a trimmed string has nothing left to trim. */
  lemma TrimIdempotent(s: string)
    ensures Trim(Trim(s)) == Trim(s)
  {
    var t := Trim(s);
    if t != [] {
      assert SpanLength(t, IsWhitespace) == 0;
      var u := TrimEndBy(t, IsWhitespace);
      assert |u| == |t|;
    }
  }
}
