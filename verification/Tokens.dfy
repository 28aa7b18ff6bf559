/**
 Separator-delimited strings. Two splitters occur in the repository:
 boost::algorithm::split keeps every field, and a getline loop drops the last
 field when it is empty.
 */
module Tokens {

  /** Every field between separators; always at least one. */
  function Split(s: string, d: char): (r: seq<string>)
    ensures r != []
  {
    if s == "" then [""]
    else
      var init, c := Split(s[..|s| - 1], d), s[|s| - 1];
      if c == d then init + [""] else init[|init| - 1 := init[|init| - 1] + [c]]
  }

  function Join(tokens: seq<string>, d: char): string {
    if tokens == [] then ""
    else if |tokens| == 1 then tokens[0]
    else Join(tokens[..|tokens| - 1], d) + [d] + tokens[|tokens| - 1]
  }

  /** What a getline loop collects. */
  function Lines(s: string, d: char): seq<string> {
    var fields := Split(s, d);
    if fields[|fields| - 1] == "" then fields[..|fields| - 1] else fields
  }

  predicate Clean(tokens: seq<string>, d: char) {
    forall i :: 0 <= i < |tokens| ==> d !in tokens[i]
  }

  function Count(s: string, d: char): nat {
    if s == "" then 0 else Count(s[..|s| - 1], d) + if s[|s| - 1] == d then 1 else 0
  }

  // ---------- splitting and joining ----------

  lemma {:induction false} JoinAppend(tokens: seq<string>, tail: string, d: char)
    requires tokens != []
    ensures Join(tokens[|tokens| - 1 := tokens[|tokens| - 1] + tail], d) == Join(tokens, d) + tail
  {
    var longer := tokens[|tokens| - 1 := tokens[|tokens| - 1] + tail];
    if |tokens| > 1 {
      assert longer[..|longer| - 1] == tokens[..|tokens| - 1];
    }
  }

  /** Splitting loses nothing, and a field holds no separator. */
  lemma {:induction false} SplitThenJoin(s: string, d: char)
    ensures Join(Split(s, d), d) == s
    ensures Clean(Split(s, d), d)
    ensures |Split(s, d)| == Count(s, d) + 1
  {
    if s != "" {
      var init, c := Split(s[..|s| - 1], d), s[|s| - 1];
      SplitThenJoin(s[..|s| - 1], d);
      assert s == s[..|s| - 1] + [c];
      if c == d {
        assert (init + [""])[..|init + [""]| - 1] == init;
      } else {
        JoinAppend(init, [c], d);
      }
    }
  }

  lemma {:induction false} SplitMoreText(s: string, more: string, d: char)
    requires d !in more
    ensures var fields := Split(s, d);
      Split(s + more, d) == fields[|fields| - 1 := fields[|fields| - 1] + more]
  {
    var fields := Split(s, d);
    if more == "" {
      assert s + more == s;
      assert fields[|fields| - 1] + more == fields[|fields| - 1];
    } else {
      var init, c := more[..|more| - 1], more[|more| - 1];
      SplitMoreText(s, init, d);
      assert (s + more)[..|s + more| - 1] == s + init;
      assert fields[|fields| - 1] + init + [c] == fields[|fields| - 1] + more by {
        assert more == init + [c];
      }
    }
  }

  /** Joining separator-free tokens loses nothing either. */
  lemma {:induction false} JoinThenSplit(tokens: seq<string>, d: char)
    requires tokens != [] && Clean(tokens, d)
    ensures Split(Join(tokens, d), d) == tokens
  {
    var init, last := tokens[..|tokens| - 1], tokens[|tokens| - 1];
    assert "" + last == last;
    if init == [] {
      SplitMoreText("", last, d);
    } else {
      JoinThenSplit(init, d);
      var s := Join(init, d) + [d];
      assert s[..|s| - 1] == Join(init, d);
      assert Split(s, d) == init + [""];
      SplitMoreText(s, last, d);
      assert (init + [""])[|init| := last] == tokens;
    }
  }

  // ---------- the getline loop ----------

  predicate EndsWith(s: string, d: char) {
    s != "" && s[|s| - 1] == d
  }

  lemma {:induction false} LastFieldIsEmpty(s: string, d: char)
    ensures Split(s, d)[|Split(s, d)| - 1] == "" <==> s == "" || EndsWith(s, d)
  {
  }

  /** Joining what the loop collected gives the text back, up to one dropped trailing separator. */
  lemma LinesThenJoin(s: string, d: char)
    ensures Join(Lines(s, d), d) == if EndsWith(s, d) then s[..|s| - 1] else s
    ensures |Lines(s, d)| == Count(s, d) + if s == "" || EndsWith(s, d) then 0 else 1
  {
    SplitThenJoin(s, d);
    LastFieldIsEmpty(s, d);
    if EndsWith(s, d) {
      SplitThenJoin(s[..|s| - 1], d);
    }
  }

  /** The separator the loop forgets: two texts give the same tokens only if they differ by it. */
  lemma {:induction false} LinesForgetOnlyATrailingSeparator(a: string, b: string, d: char)
    requires Lines(a, d) == Lines(b, d)
    ensures a == b || a == b + [d] || b == a + [d]
  {
    TextOfLines(a, d);
    TextOfLines(b, d);
  }

  lemma {:induction false} TextOfLines(s: string, d: char)
    ensures s == Join(Lines(s, d), d) || s == Join(Lines(s, d), d) + [d]
  {
    LinesThenJoin(s, d);
    if EndsWith(s, d) {
      assert s == s[..|s| - 1] + [d];
    }
  }

  // ---------- the first separator ----------

  /** The index of the first occurrence of c, or the length. */
  function Find(s: string, c: char): (i: nat)
    ensures i <= |s| && c !in s[..i] && (i < |s| ==> s[i] == c)
  {
    if s == "" || s[0] == c then 0
    else
      var i := 1 + Find(s[1..], c);
      assert s[..i] == [s[0]] + s[1..][..i - 1];
      i
  }

  lemma {:induction false} FindAfterCleanText(text: string, c: char, more: string)
    requires c !in text
    ensures Find(text + [c] + more, c) == |text|
  {
    if text != "" {
      assert (text + [c] + more)[1..] == text[1..] + [c] + more;
      FindAfterCleanText(text[1..], c, more);
    }
  }
}
