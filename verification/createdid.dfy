/** `created_id` (src/main.rs:383-390), the test helper that reads the id of
    a newly added task out of the `task add` report ("Created task 5."). */
module CreatedId {
  import opened Text

  /** The id used when the report has fewer than three words. */
  const FallbackId: string := "1"

  predicate IsDot(c: char) {
    c == '.'
  }

  /** `n` full stops. */
  function Dots(n: nat): (r: string)
    ensures |r| == n && forall k :: 0 <= k < n ==> r[k] == '.'
  {
    seq(n, _ => '.')
  }

  /** The third whitespace-separated word of `output` with its trailing full
      stops removed, or `"1"` when there is no third word. Only full stops
      are removed from the word, all of them, and the id never ends in one. */
  function CreatedId(output: string): (id: string)
    ensures var words := SplitWhitespace(output);
            |words| < 3 ==> id == FallbackId
    ensures var words := SplitWhitespace(output);
            |words| >= 3 ==>
              && |id| <= |words[2]| && id == words[2][..|id|]
              && (forall k :: |id| <= k < |words[2]| ==> words[2][k] == '.')
              && (id == [] || id[|id| - 1] != '.')
  {
    var words := SplitWhitespace(output);
    TrimEndBy(if |words| > 2 then words[2] else FallbackId, IsDot)
  }

  lemma {:induction false} TrimDots(w: string, n: nat)
    requires w == [] || w[|w| - 1] != '.'
    ensures TrimEndBy(w + Dots(n), IsDot) == w
    decreases n
  {
    if n > 0 {
      var s := w + Dots(n);
      assert s[..|s| - 1] == w + Dots(n - 1);
      TrimDots(w, n - 1);
    } else {
      assert w + Dots(n) == w;
    }
  }

  /** A word followed by a space splits off as the first token. */
  lemma SplitLeadingWord(w: string, t: string)
    requires IsWord(w)
    ensures SplitWhitespace(w + " " + t) == [w] + SplitWhitespace(t)
  {
    SplitWord(w);
    assert w + " " + t == w + [' '] + t;
    SplitAtWhitespace(w, ' ', t);
  }

  /** A word followed by nothing, or by whitespace, is the first token. */
  lemma SplitWordThenRest(w: string, rest: string)
    requires IsWord(w)
    requires rest == [] || IsWhitespace(rest[0])
    ensures |SplitWhitespace(w + rest)| >= 1 && SplitWhitespace(w + rest)[0] == w
  {
    SplitWord(w);
    if rest == [] {
      assert w + rest == w;
    } else {
      assert w + [rest[0]] + rest[1..] == w + rest;
      SplitAtWhitespace(w, rest[0], rest[1..]);
    }
  }

  /** The id of an add report: for any two leading words (such as
      "Created task") followed by the id, any number of full stops and
      either nothing or whitespace and further text, `created_id` returns
      the id exactly. */
  lemma CreatedIdOfReport(w1: string, w2: string, id: string, dots: nat, rest: string)
    requires IsWord(w1) && IsWord(w2) && IsWord(id) && id[|id| - 1] != '.'
    requires rest == [] || IsWhitespace(rest[0])
    ensures CreatedId(w1 + " " + w2 + " " + id + Dots(dots) + rest) == id
  {
    var word := id + Dots(dots);
    assert IsWord(word);
    var t2 := word + rest;
    var t1 := w2 + " " + t2;
    var s := w1 + " " + t1;
    assert s == w1 + " " + w2 + " " + id + Dots(dots) + rest;
    SplitWordThenRest(word, rest);
    SplitLeadingWord(w2, t2);
    SplitLeadingWord(w1, t1);
    assert SplitWhitespace(s)[2] == word;
    TrimDots(id, dots);
  }

  /** The example the helper documents: "Created task 5." gives "5". */
  lemma CreatedTaskFive()
    ensures CreatedId("Created task 5.") == "5"
  {
    assert "Created task 5." == "Created" + " " + "task" + " " + "5" + Dots(1) + "";
    CreatedIdOfReport("Created", "task", "5", 1, "");
  }
}
