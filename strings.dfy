/** The two JavaScript string operations the resolver relies on:
    `String.prototype.split(" ")` with its inverse, the join on a single
    space, and `String.prototype.substring` with its clamping and swapping
    of out-of-order bounds. Strings are sequences of `char`, and indices
    count `char`s. A `char` is a Unicode scalar value, so this agrees with
    JavaScript's UTF-16 indexing only while the text stays inside the Basic
    Multilingual Plane. */
module JsStrings {

  /** `s.split(" ")`: the maximal space-free pieces between single spaces.
      A leading, trailing or doubled space yields an empty piece, and the
      empty string splits into one empty piece. */
  function SplitSpace(s: string): (words: seq<string>)
    ensures |words| >= 1
    decreases |s|
  {
    if |s| == 0 then [""]
    else
      var init := SplitSpace(s[..|s| - 1]);
      var c := s[|s| - 1];
      if c == ' ' then init + [""]
      else init[..|init| - 1] + [init[|init| - 1] + [c]]
  }

  /** No piece of a split contains a space. */
  lemma {:induction false} SplitSpaceFree(s: string)
    ensures forall i :: 0 <= i < |SplitSpace(s)| ==> ' ' !in SplitSpace(s)[i]
    decreases |s|
  {
    if |s| > 0 {
      SplitSpaceFree(s[..|s| - 1]);
      var init := SplitSpace(s[..|s| - 1]);
      var c := s[|s| - 1];
      var words := SplitSpace(s);
      if c == ' ' {
        assert words == init + [""];
        forall i | 0 <= i < |words| ensures ' ' !in words[i] {
          if i < |init| { assert words[i] == init[i]; }
        }
      } else {
        var prev := init[|init| - 1];
        var last := prev + [c];
        assert words == init[..|init| - 1] + [last];
        assert ' ' !in last by {
          forall i | 0 <= i < |last| ensures last[i] != ' ' {
            if i < |prev| { assert last[i] == prev[i] && prev[i] in prev; }
          }
        }
        forall i | 0 <= i < |words| ensures ' ' !in words[i] {
          if i < |init| - 1 { assert words[i] == init[i]; }
        }
      }
    }
  }

  /** `words.join(" ")`. */
  function JoinSpace(words: seq<string>): string
    decreases |words|
  {
    if |words| == 0 then ""
    else if |words| == 1 then words[0]
    else JoinSpace(words[..|words| - 1]) + " " + words[|words| - 1]
  }

  /** Joining the pieces of a split gives back the string. */
  lemma {:induction false} JoinSplit(s: string)
    ensures JoinSpace(SplitSpace(s)) == s
    decreases |s|
  {
    if |s| > 0 {
      var t := s[..|s| - 1];
      var c := s[|s| - 1];
      assert s == t + [c];
      var init := SplitSpace(t);
      JoinSplit(t);
      if c == ' ' {
        var ws := init + [""];
        assert ws[..|ws| - 1] == init;
      } else {
        var ws := init[..|init| - 1] + [init[|init| - 1] + [c]];
        assert ws == SplitSpace(s);
        if |init| > 1 {
          assert ws[..|ws| - 1] == init[..|init| - 1];
        }
      }
    }
  }

  /** Appending a space adds one empty piece. */
  lemma SplitAppendSpace(s: string)
    ensures SplitSpace(s + " ") == SplitSpace(s) + [""]
  {
    var u := s + " ";
    assert u[..|u| - 1] == s;
  }

  /** Appending a non-space character extends the last piece. */
  lemma SplitAppendChar(s: string, c: char)
    requires c != ' '
    ensures var ws := SplitSpace(s);
      SplitSpace(s + [c]) == ws[..|ws| - 1] + [ws[|ws| - 1] + [c]]
  {
    var u := s + [c];
    assert u[..|u| - 1] == s;
  }

  /** Appending space-free text extends the last piece. */
  lemma {:induction false} SplitAppendWord(s: string, w: string)
    requires ' ' !in w
    ensures var ws := SplitSpace(s);
      SplitSpace(s + w) == ws[..|ws| - 1] + [ws[|ws| - 1] + w]
    decreases |w|
  {
    var ws := SplitSpace(s);
    if |w| == 0 {
      assert s + w == s && ws[|ws| - 1] + w == ws[|ws| - 1];
      assert ws == ws[..|ws| - 1] + [ws[|ws| - 1]];
    } else {
      var v := w[..|w| - 1];
      var c := w[|w| - 1];
      assert w == v + [c];
      SplitAppendWord(s, v);
      SplitAppendChar(s + v, c);
      assert s + w == (s + v) + [c];
      AppendLast(ws, v, c);
    }
  }

  /** Extending the last piece twice is extending it once. */
  lemma AppendLast(ws: seq<string>, v: string, c: char)
    requires |ws| >= 1
    ensures var init := ws[..|ws| - 1] + [ws[|ws| - 1] + v];
      init[..|init| - 1] + [init[|init| - 1] + [c]] == ws[..|ws| - 1] + [ws[|ws| - 1] + (v + [c])]
  {
    var init := ws[..|ws| - 1] + [ws[|ws| - 1] + v];
    assert init[..|init| - 1] == ws[..|ws| - 1];
    assert init[|init| - 1] == ws[|ws| - 1] + v;
    assert (ws[|ws| - 1] + v) + [c] == ws[|ws| - 1] + (v + [c]);
  }

  /** Splitting a join of space-free words gives back the words: the other
      half of the round trip. */
  lemma {:induction false} SplitJoin(words: seq<string>)
    requires |words| >= 1
    requires forall i :: 0 <= i < |words| ==> ' ' !in words[i]
    ensures SplitSpace(JoinSpace(words)) == words
    decreases |words|
  {
    var w := words[|words| - 1];
    if |words| == 1 {
      SplitAppendWord("", w);
      assert "" + w == w;
    } else {
      var init := words[..|words| - 1];
      assert forall i :: 0 <= i < |init| ==> ' ' !in init[i] by {
        forall i | 0 <= i < |init| ensures ' ' !in init[i] { assert init[i] == words[i]; }
      }
      SplitJoin(init);
      var j := JoinSpace(init);
      SplitAppendSpace(j);
      SplitAppendWord(j + " ", w);
      assert JoinSpace(words) == (j + " ") + w;
      var ws := SplitSpace(j + " ");
      assert ws == init + [""];
      assert ws[..|ws| - 1] == init;
      assert ws[|ws| - 1] + w == w;
      assert words == init + [w];
    }
  }

  /** `s.substring(start, end)`: both bounds are clamped to the length and
      swapped when they are out of order. */
  function Substring(s: string, start: nat, end: nat): string
  {
    var a := if start < |s| then start else |s|;
    var b := if end < |s| then end else |s|;
    if a <= b then s[a..b] else s[b..a]
  }

  /** The cases of `substring`: in-range bounds give the slice, reversed
      bounds the slice between them, bounds both past the end "", and one
      bound past the end the suffix from the other. */
  lemma SubstringSpec(s: string, start: nat, end: nat)
    ensures start <= end <= |s| ==> Substring(s, start, end) == s[start..end]
    ensures end <= start <= |s| ==> Substring(s, start, end) == s[end..start]
    ensures |s| <= start && |s| <= end ==> Substring(s, start, end) == ""
    ensures start <= |s| <= end ==> Substring(s, start, end) == s[start..]
    ensures end <= |s| <= start ==> Substring(s, start, end) == s[end..]
  {
  }
}
