/** Cutting a text into lines, and how lines behave when texts are joined. */
module Lines {
  import opened Base

  /** Cuts at every newline; a text always has at least one line. */
  function Split(s: string): (lines: seq<string>)
    ensures lines != []
  {
    if s == "" then [""]
    else
      var rest := Split(s[1..]);
      if s[0] == '\n' then [""] + rest else [[s[0]] + rest[0]] + rest[1..]
  }

  function LastLine(s: string): string {
    Split(s)[|Split(s)| - 1]
  }

  /** The lines of an edit text: a final newline ends the last line rather than starting another. */
  function PreviewLines(text: string): seq<string> {
    if text == "" then [] else Kept(Split(text))
  }

  /** The lines of a cut text, without an empty last one. */
  function Kept(y: seq<string>): seq<string>
    requires y != []
  {
    if y[|y| - 1] == "" then y[..|y| - 1] else y
  }

  function Newlines(s: string): nat {
    if s == "" then 0 else (if s[0] == '\n' then 1 else 0) + Newlines(s[1..])
  }

  lemma {:induction false} SplitLength(s: string)
    ensures |Split(s)| == Newlines(s) + 1
  {
    if s != "" {
      SplitLength(s[1..]);
    }
  }

  /** One more character in front of a text that has been cut. */
  function PushChar(c: char, lines: seq<string>): (r: seq<string>)
    requires lines != []
    ensures r != []
  {
    if c == '\n' then [""] + lines else [[c] + lines[0]] + lines[1..]
  }

  /** Two cut texts side by side: the last line of one runs into the first line of the other. */
  function JoinLines(x: seq<string>, y: seq<string>): (r: seq<string>)
    requires x != [] && y != []
    ensures r != []
  {
    x[..|x| - 1] + [x[|x| - 1] + y[0]] + y[1..]
  }

  lemma PushJoin(c: char, x: seq<string>, y: seq<string>)
    requires x != [] && y != []
    ensures PushChar(c, JoinLines(x, y)) == JoinLines(PushChar(c, x), y)
  {
    var l, r := PushChar(c, JoinLines(x, y)), JoinLines(PushChar(c, x), y);
    if c == '\n' {
      assert PushChar(c, x)[..|x|] == [""] + x[..|x| - 1];
    } else if |x| == 1 {
      assert [c] + (x[0] + y[0]) == ([c] + x[0]) + y[0];
      assert l == [[c] + (x[0] + y[0])] + y[1..];
      assert r == [([c] + x[0]) + y[0]] + y[1..];
    } else {
      assert |l| == |r|;
      assert JoinLines(x, y)[0] == x[0];
      assert PushChar(c, x)[|x| - 1] == x[|x| - 1];
      assert forall k :: 0 <= k < |l| ==> l[k] == r[k];
    }
  }

  /** Joining two texts joins the last line of one to the first line of the other. */
  lemma {:induction false} SplitConcat(a: string, b: string)
    ensures Split(a + b) == JoinLines(Split(a), Split(b))
  {
    if a == "" {
      assert a + b == b;
      assert "" + Split(b)[0] == Split(b)[0];
    } else {
      assert (a + b)[1..] == a[1..] + b;
      SplitConcat(a[1..], b);
      PushJoin(a[0], Split(a[1..]), Split(b));
      assert Split(a + b) == PushChar(a[0], Split(a[1..] + b));
      assert Split(a) == PushChar(a[0], Split(a[1..]));
    }
  }

  /** The last line is empty exactly when the text is, or ends in a newline. */
  lemma {:induction false} LastLineEmpty(s: string)
    ensures LastLine(s) == "" <==> s == "" || s[|s| - 1] == '\n'
  {
    if s != "" {
      LastLineEmpty(s[1..]);
    }
  }

  lemma {:induction false} NewlinesSnoc(s: string, c: char)
    ensures Newlines(s + [c]) == Newlines(s) + if c == '\n' then 1 else 0
  {
    if s == "" {
      assert s + [c] == [c] && [c][1..] == "";
    } else {
      assert (s + [c])[1..] == s[1..] + [c];
      NewlinesSnoc(s[1..], c);
    }
  }

  /** How much of `text` an offset leaves behind it. */
  function Before(text: string, offset: int): string {
    text[..Min(Max(0, offset), |text|)]
  }

  lemma BeforeFits(text: string, offset: int)
    ensures Newlines(Before(text, offset)) < |Split(text)|
  {
    var before := Before(text, offset);
    SplitLength(before);
    SplitConcat(before, text[|before|..]);
    assert text == before + text[|before|..];
  }

  /** Counts the line a match starts on; an offset outside the text counts to the nearer end. */
  method LineNumberAt(text: string, offset: int) returns (line: nat)
    ensures line == 1 + Newlines(Before(text, offset))
  {
    line := 1;
    var i := 0;
    while i < Max(0, offset)
      invariant 0 <= i <= Max(0, offset) && line == 1 + Newlines(Before(text, i))
    {
      if i < |text| {
        NewlinesSnoc(text[..i], text[i]);
        assert text[..i + 1] == text[..i] + [text[i]];
      }
      if i < |text| && text[i] == '\n' {
        line := line + 1;
      }
      i := i + 1;
    }
  }

  /** The text ends where a line does. */
  predicate EndsLine(t: string) {
    LastLine(t) == ""
  }

  /** What follows `t` starts a new line, or `t` ends one itself. */
  predicate Fits(t: string, suf: string) {
    EndsLine(t) || Split(suf)[0] == ""
  }

  lemma {:induction false} SplitEmpty(t: string)
    ensures Split(t) == [""] <==> t == ""
  {
    if t != "" && t[0] != '\n' {
      assert |Split(t)[0]| > 0;
    }
  }

  /** A text in the middle of another: which lines it holds, and which come after it. */
  ghost predicate IsMiddle(all: seq<string>, x: seq<string>, y: seq<string>, z: seq<string>)
    requires x != [] && y != [] && z != []
  {
    var s, aligned, ends := |x| - 1, x[|x| - 1] == "", y[|y| - 1] == "";
    && s + |Kept(y)| <= |all|
    && all[..s] == x[..s]
    && (aligned ==> all[s + |Kept(y)|..] == if ends then z else z[1..])
    && (all[s..s + |Kept(y)|] == Kept(y) <==> y == [""] || (aligned && (ends || z[0] == "")))
  }

  lemma MiddleLines(pre: string, t: string, suf: string)
    ensures IsMiddle(Split(pre + t + suf), Split(pre), Split(t), Split(suf))
    ensures PreviewLines(t) == Kept(Split(t))
    ensures Split(t) == [""] <==> t == ""
  {
    assert pre + t + suf == pre + (t + suf);
    SplitConcat(pre, t + suf);
    SplitConcat(t, suf);
    SplitEmpty(t);
    JoinedMiddle(Split(pre), Split(t), Split(suf));
  }

  lemma JoinedMiddle(x: seq<string>, y: seq<string>, z: seq<string>)
    requires x != [] && y != [] && z != []
    ensures IsMiddle(JoinLines(x, JoinLines(y, z)), x, y, z)
  {
    if x[|x| - 1] == "" {
      Aligned(x, y, z);
    } else {
      Misaligned(x, y, z);
    }
  }

  lemma AlignedJoin(x: seq<string>, r: seq<string>)
    requires x != [] && r != [] && x[|x| - 1] == ""
    ensures JoinLines(x, r) == x[..|x| - 1] + r
  {
    assert "" + r[0] == r[0];
    assert r == [r[0]] + r[1..];
  }

  /** Slices that start where the first of two joined sequences ends. */
  lemma SlicesAfter<T>(a: seq<T>, b: seq<T>, n: nat)
    requires n <= |b|
    ensures (a + b)[..|a|] == a && (a + b)[|a|..|a| + n] == b[..n] && (a + b)[|a| + n..] == b[n..]
  {
  }

  lemma Aligned(x: seq<string>, y: seq<string>, z: seq<string>)
    requires x != [] && y != [] && z != [] && x[|x| - 1] == ""
    ensures var all := JoinLines(x, JoinLines(y, z));
            var s := |x| - 1;
            && s + |Kept(y)| <= |all| && all[..s] == x[..s]
            && all[s + |Kept(y)|..] == (if y[|y| - 1] == "" then z else z[1..])
            && (all[s..s + |Kept(y)|] == Kept(y) <==> y[|y| - 1] == "" || z[0] == "")
  {
    AlignedJoin(x, JoinLines(y, z));
    SlicesAfter(x[..|x| - 1], JoinLines(y, z), |Kept(y)|);
    JoinedPair(y, z);
  }

  lemma JoinedPair(y: seq<string>, z: seq<string>)
    requires y != [] && z != []
    ensures var last, joined := |y| - 1, JoinLines(y, z);
            && (y[last] == "" ==> joined[..last] == y[..last] && joined[last..] == z)
            && joined[|y|..] == z[1..]
            && (y[last] != "" ==> (joined[..|y|] == y <==> z[0] == ""))
  {
    var last, joined := |y| - 1, JoinLines(y, z);
    if y[last] == "" {
      assert "" + z[0] == z[0];
    } else if z[0] == "" {
      assert y[last] + "" == y[last];
    } else {
      assert |y[last] + z[0]| > |y[last]|;
      assert joined[..|y|][last] == y[last] + z[0];
    }
  }

  lemma Misaligned(x: seq<string>, y: seq<string>, z: seq<string>)
    requires x != [] && y != [] && z != [] && x[|x| - 1] != ""
    ensures var all := JoinLines(x, JoinLines(y, z));
            var s := |x| - 1;
            && s + |Kept(y)| <= |all| && all[..s] == x[..s]
            && (y != [""] ==> all[s..s + |Kept(y)|] != Kept(y))
  {
    var s, all := |x| - 1, JoinLines(x, JoinLines(y, z));
    assert all[s] == x[s] + JoinLines(y, z)[0];
    assert |all[s]| > |JoinLines(y, z)[0]| >= |y[0]|;
    if y != [""] {
      assert Kept(y) != [] && Kept(y)[0] == y[0];
      assert all[s..s + |Kept(y)|][0] == all[s];
    }
  }
}
