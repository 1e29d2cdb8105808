/**
 The diff shown for one edit: context, removed and added lines with their numbers, cut from the
 file text, the offset of the match and the old and new texts.
 */
module EditHunk {
  import opened Base
  import opened Lines

  /** A shown line; the proofs do not look inside the text `T` of a line. */
  datatype DiffLine<T> =
    | Context(oldLine: int, newLine: int, text: T)
    | Remove(oldLine: int, text: T)
    | Add(newLine: int, text: T)
    | Ellipsis

  const CONTEXT := 4

  // ── Trimming ──────────────────────────────────────────────────────────────

  /** How far two sequences agree from index `k` on, counted from the start. */
  function CommonPrefix<T(==)>(a: seq<T>, b: seq<T>, k: nat := 0): (n: nat)
    requires k <= |a| && k <= |b|
    ensures k <= n <= |a| && n <= |b|
    decreases |a| - k
  {
    if k < |a| && k < |b| && a[k] == b[k] then CommonPrefix(a, b, k + 1) else k
  }

  /** The same from the end, over what the prefix leaves. */
  function CommonSuffix<T(==)>(a: seq<T>, b: seq<T>, prefix: nat, k: nat := 0): (n: nat)
    requires prefix + k <= |a| && prefix + k <= |b|
    ensures k <= n && prefix + n <= |a| && prefix + n <= |b|
    decreases |a| - k
  {
    if prefix + k < |a| && prefix + k < |b| && a[|a| - 1 - k] == b[|b| - 1 - k]
    then CommonSuffix(a, b, prefix, k + 1)
    else k
  }

  /** The trimmed prefix is common, and cannot be longer. */
  lemma {:induction false} PrefixIsMaximal<T>(a: seq<T>, b: seq<T>, k: nat := 0)
    requires k <= |a| && k <= |b| && a[..k] == b[..k]
    ensures var n := CommonPrefix(a, b, k);
            a[..n] == b[..n] && (n == |a| || n == |b| || a[n] != b[n])
    decreases |a| - k
  {
    if k < |a| && k < |b| && a[k] == b[k] {
      assert a[..k + 1] == a[..k] + [a[k]] && b[..k + 1] == b[..k] + [b[k]];
      PrefixIsMaximal(a, b, k + 1);
    }
  }

  function FromEnd<T>(a: seq<T>, i: nat): T
    requires i < |a|
  {
    a[|a| - 1 - i]
  }

  ghost predicate SameEnds<T>(a: seq<T>, b: seq<T>, n: nat)
    requires n <= |a| && n <= |b|
  {
    forall i :: 0 <= i < n ==> FromEnd(a, i) == FromEnd(b, i)
  }

  lemma SameEndsAreSlices<T>(a: seq<T>, b: seq<T>, n: nat)
    requires n <= |a| && n <= |b| && SameEnds(a, b, n)
    ensures a[|a| - n..] == b[|b| - n..]
  {
    var x, y := a[|a| - n..], b[|b| - n..];
    forall k | 0 <= k < n ensures x[k] == y[k] {
      assert x[k] == FromEnd(a, n - 1 - k) && y[k] == FromEnd(b, n - 1 - k);
    }
  }

  /** The trimmed suffix is common, never overlaps the prefix, and cannot be longer. */
  lemma {:induction false} SuffixIsMaximal<T>(a: seq<T>, b: seq<T>, prefix: nat, k: nat := 0)
    requires prefix + k <= |a| && prefix + k <= |b| && SameEnds(a, b, k)
    ensures var n := CommonSuffix(a, b, prefix, k);
            && prefix + n <= |a| && prefix + n <= |b| && SameEnds(a, b, n)
            && (prefix + n == |a| || prefix + n == |b| || FromEnd(a, n) != FromEnd(b, n))
    decreases |a| - k
  {
    if prefix + k < |a| && prefix + k < |b| && FromEnd(a, k) == FromEnd(b, k) {
      SuffixIsMaximal(a, b, prefix, k + 1);
    }
  }

  // ── The hunk ──────────────────────────────────────────────────────────────

  function Contexts<T>(oldLine: int, newLine: int, texts: seq<T>): seq<DiffLine<T>> {
    seq(|texts|, i requires 0 <= i < |texts| => Context(oldLine + i, newLine + i, texts[i]))
  }

  lemma ContextsSnoc<T>(oldLine: int, newLine: int, texts: seq<T>, text: T)
    ensures Contexts(oldLine, newLine, texts + [text])
         == Contexts(oldLine, newLine, texts) + [Context(oldLine + |texts|, newLine + |texts|, text)]
  {
  }

  function Removes<T>(oldLine: int, texts: seq<T>): seq<DiffLine<T>> {
    seq(|texts|, i requires 0 <= i < |texts| => Remove(oldLine + i, texts[i]))
  }

  function Adds<T>(newLine: int, texts: seq<T>): seq<DiffLine<T>> {
    seq(|texts|, i requires 0 <= i < |texts| => Add(newLine + i, texts[i]))
  }

  /** `lines[from..to]`, or nothing when the range is empty. */
  function Window<T>(lines: seq<T>, from: nat, to: nat): (w: seq<T>)
    requires to <= |lines|
    ensures from <= to ==> w == lines[from..to]
  {
    if from < to then lines[from..to] else []
  }

  function BeforeStart(start: nat): nat {
    Max(0, start - CONTEXT)
  }

  function AfterEnd<T>(file: seq<T>, afterStart: nat): nat {
    Min(|file|, afterStart + CONTEXT)
  }

  /** The unchanged lines shown after the edit. */
  function After<T>(file: seq<T>, afterStart: nat): seq<T> {
    Window(file, afterStart, AfterEnd(file, afterStart))
  }

  function Change<T>(at: int, gone: seq<T>, added: seq<T>): seq<DiffLine<T>> {
    Removes(at, gone) + Adds(at, added)
  }

  function Middle<T>(start: nat, was: seq<T>, now: seq<T>, prefix: nat, suffix: nat): seq<DiffLine<T>>
    requires prefix + suffix <= |was| && prefix + suffix <= |now|
  {
    Contexts(start + 1, start + 1, was[..prefix])
    + Change(start + 1 + prefix, was[prefix..|was| - suffix], now[prefix..|now| - suffix])
    + Contexts(start + 1 + |was| - suffix, start + 1 + |now| - suffix, was[|was| - suffix..])
  }

  function Trimmed<T(==)>(start: nat, was: seq<T>, now: seq<T>): seq<DiffLine<T>> {
    var prefix := CommonPrefix(was, now);
    Middle(start, was, now, prefix, CommonSuffix(was, now, prefix))
  }

  function Dots<T>(shown: bool): seq<DiffLine<T>> {
    if shown then [Ellipsis] else []
  }

  /** The middle section with the unchanged lines around it, for an edit of `gone` lines into `added`. */
  function Around<T>(file: seq<T>, start: nat, gone: nat, added: nat, middle: seq<DiffLine<T>>): seq<DiffLine<T>>
    requires start <= |file|
  {
    var b := BeforeStart(start);
    Dots(b > 0)
    + Contexts(b + 1, b + 1, file[b..start])
    + middle
    + Contexts(start + gone + 1, start + 1 + added, After(file, start + gone))
    + Dots(AfterEnd(file, start + gone) < |file|)
  }

  function Hunk<T(==)>(file: seq<T>, start: nat, was: seq<T>, now: seq<T>): seq<DiffLine<T>>
    requires start <= |file|
  {
    Around(file, start, |was|, |now|, Trimmed(start, was, now))
  }

  /** `Around` with its parts named, so that each may be built on its own. */
  lemma AroundIsItsParts<T>(file: seq<T>, start: nat, gone: nat, added: nat, before: seq<DiffLine<T>>,
                            middle: seq<DiffLine<T>>, after: seq<DiffLine<T>>)
    requires start <= |file|
    requires var b := BeforeStart(start); before == Contexts(b + 1, b + 1, file[b..start])
    requires after == Contexts(start + gone + 1, start + 1 + added, After(file, start + gone))
    ensures Around(file, start, gone, added, middle)
         == Dots(BeforeStart(start) > 0) + before + middle + after + Dots(AfterEnd(file, start + gone) < |file|)
  {
  }

  lemma MiddleIsItsParts<T>(start: nat, was: seq<T>, now: seq<T>, prefix: nat, suffix: nat,
                          kept: seq<DiffLine<T>>, changed: seq<DiffLine<T>>, rest: seq<DiffLine<T>>)
    requires prefix + suffix <= |was| && prefix + suffix <= |now|
    requires kept == Contexts(start + 1, start + 1, was[..prefix])
    requires changed == Change(start + 1 + prefix, was[prefix..|was| - suffix], now[prefix..|now| - suffix])
    requires rest == Contexts(start + 1 + |was| - suffix, start + 1 + |now| - suffix, was[|was| - suffix..])
    ensures Middle(start, was, now, prefix, suffix) == kept + changed + rest
  {
  }

  method TrimPrefix<T(==)>(was: seq<T>, now: seq<T>) returns (n: nat)
    ensures n == CommonPrefix(was, now)
  {
    n := 0;
    while n < |was| && n < |now| && was[n] == now[n]
      invariant n <= |was| && n <= |now| && CommonPrefix(was, now) == CommonPrefix(was, now, n)
    {
      n := n + 1;
    }
  }

  method TrimSuffix<T(==)>(was: seq<T>, now: seq<T>, prefix: nat) returns (n: nat)
    requires prefix <= |was| && prefix <= |now|
    ensures n == CommonSuffix(was, now, prefix)
  {
    n := 0;
    while n < |was| - prefix && n < |now| - prefix && was[|was| - 1 - n] == now[|now| - 1 - n]
      invariant prefix + n <= |was| && prefix + n <= |now|
      invariant CommonSuffix(was, now, prefix) == CommonSuffix(was, now, prefix, n)
    {
      n := n + 1;
    }
  }

  /** `lines[from..to]` as context; row `i` is numbered `oldBase + i` and `newBase + i`. */
  method ContextRows<T>(lines: seq<T>, from: nat, to: nat, oldBase: int, newBase: int)
    returns (out: seq<DiffLine<T>>)
    requires to <= |lines|
    ensures out == Contexts(oldBase + from, newBase + from, Window(lines, from, to))
  {
    out := [];
    var i := from;
    while i < to
      invariant from <= i <= Max(from, to)
      invariant out == Contexts(oldBase + from, newBase + from, Window(lines, from, Min(i, to)))
    {
      ContextsSnoc(oldBase + from, newBase + from, lines[from..i], lines[i]);
      assert lines[from..i + 1] == lines[from..i] + [lines[i]];
      out := out + [Context(oldBase + i, newBase + i, lines[i])];
      i := i + 1;
    }
  }

  method ChangeRows<T>(was: seq<T>, now: seq<T>, prefix: nat, suffix: nat, base: int)
    returns (out: seq<DiffLine<T>>)
    requires prefix + suffix <= |was| && prefix + suffix <= |now|
    ensures out == Change(base + prefix, was[prefix..|was| - suffix], now[prefix..|now| - suffix])
  {
    out := [];
    for i := prefix to |was| - suffix
      invariant out == Removes(base + prefix, was[prefix..i])
    {
      assert was[prefix..i + 1] == was[prefix..i] + [was[i]];
      out := out + [Remove(base + i, was[i])];
    }
    ghost var gone := out;
    for i := prefix to |now| - suffix
      invariant out == gone + Adds(base + prefix, now[prefix..i])
    {
      assert now[prefix..i + 1] == now[prefix..i] + [now[i]];
      out := out + [Add(base + i, now[i])];
    }
  }

  method MiddleRows<T(==)>(startIndex: nat, was: seq<T>, now: seq<T>) returns (out: seq<DiffLine<T>>)
    ensures out == Trimmed(startIndex, was, now)
  {
    var oldStart := startIndex + 1;
    var newStart := oldStart;
    var prefix := TrimPrefix(was, now);
    var suffix := TrimSuffix(was, now, prefix);
    var kept := ContextRows(was, 0, prefix, oldStart, newStart);
    var changed := ChangeRows(was, now, prefix, suffix, oldStart);
    var rest := ContextRows(was, |was| - suffix, |was|, oldStart, newStart + |now| - |was|);
    out := kept + changed + rest;
    assert Window(was, 0, prefix) == was[..prefix] && Window(was, |was| - suffix, |was|) == was[|was| - suffix..];
    assert oldStart + (|was| - suffix) == startIndex + 1 + |was| - suffix;
    assert newStart + |now| - |was| + (|was| - suffix) == startIndex + 1 + |now| - suffix;
    MiddleIsItsParts(startIndex, was, now, prefix, suffix, kept, changed, rest);
  }

  method HunkRows<T(==)>(fileLines: seq<T>, startIndex: nat, was: seq<T>, now: seq<T>)
    returns (out: seq<DiffLine<T>>)
    requires startIndex <= |fileLines|
    ensures out == Hunk(fileLines, startIndex, was, now)
  {
    var newStart := startIndex + 1;
    var beforeStart := Max(0, startIndex - CONTEXT);
    var afterStart := startIndex + |was|;
    var afterEnd := Min(|fileLines|, afterStart + CONTEXT);
    var before := ContextRows(fileLines, beforeStart, startIndex, 1, 1);
    var middle := MiddleRows(startIndex, was, now);
    var after := ContextRows(fileLines, afterStart, afterEnd, 1, newStart + |now| - afterStart);
    AroundIsItsParts(fileLines, startIndex, |was|, |now|, before, middle, after);
    out := [];
    if beforeStart > 0 {
      out := [Ellipsis];
    }
    out := out + before + middle + after;
    if afterEnd < |fileLines| {
      out := out + [Ellipsis];
    }
  }

  method BuildEditHunk(fileText: string, startOffset: int, oldText: string, newText: string)
    returns (out: seq<DiffLine<string>>)
    ensures Newlines(Before(fileText, startOffset)) <= |Split(fileText)|
    ensures out == Hunk(Split(fileText), Newlines(Before(fileText, startOffset)),
                        PreviewLines(oldText), PreviewLines(newText))
  {
    var oldStart := LineNumberAt(fileText, startOffset);
    BeforeFits(fileText, startOffset);
    out := HunkRows(Split(fileText), oldStart - 1, PreviewLines(oldText), PreviewLines(newText));
  }

  // ── What a hunk shows of either text ──────────────────────────────────────

  /** A line as it is shown: its number and its text. */
  datatype Row<T> = Row(number: int, text: T)

  datatype Version = Old | New

  /** The rows one line shows of a version: context shows in both, the rest in one or neither. */
  function Shown<T>(line: DiffLine<T>, v: Version): seq<Row<T>> {
    match line
    case Context(o, n, t) => [Row(if v.Old? then o else n, t)]
    case Remove(o, t) => if v.Old? then [Row(o, t)] else []
    case Add(n, t) => if v.New? then [Row(n, t)] else []
    case Ellipsis => []
  }

  /** The rows of one version in a hunk. */
  function Side<T>(h: seq<DiffLine<T>>, v: Version): seq<Row<T>> {
    if h == [] then [] else Shown(h[0], v) + Side(h[1..], v)
  }

  function Numbered<T>(first: int, texts: seq<T>): seq<Row<T>> {
    seq(|texts|, i requires 0 <= i < |texts| => Row(first + i, texts[i]))
  }

  /** A stretch of the hunk whose rows of version `v` are `texts`, numbered on from `first`. */
  ghost predicate Stretch<T>(h: seq<DiffLine<T>>, v: Version, first: int, texts: seq<T>) {
    Side(h, v) == Numbered(first, texts)
  }

  lemma {:induction false} SideConcat<T>(g: seq<DiffLine<T>>, h: seq<DiffLine<T>>, v: Version)
    ensures Side(g + h, v) == Side(g, v) + Side(h, v)
  {
    if g == [] {
      assert g + h == h;
    } else {
      assert (g + h)[1..] == g[1..] + h;
      SideConcat(g[1..], h, v);
      var head, x, y := Shown(g[0], v), Side(g[1..], v), Side(h, v);
      assert head + (x + y) == (head + x) + y;
    }
  }

  lemma {:induction false} SideOfContexts<T>(o: int, n: int, texts: seq<T>, v: Version)
    ensures Stretch(Contexts(o, n, texts), v, if v.Old? then o else n, texts)
    decreases |texts|
  {
    if texts != [] {
      assert Contexts(o, n, texts)[1..] == Contexts(o + 1, n + 1, texts[1..]);
      SideOfContexts(o + 1, n + 1, texts[1..], v);
    }
  }

  lemma {:induction false} SideOfRemoves<T>(o: int, texts: seq<T>, v: Version)
    ensures Side(Removes(o, texts), v) == Numbered(o, if v.Old? then texts else [])
    decreases |texts|
  {
    if texts != [] {
      assert Removes(o, texts)[1..] == Removes(o + 1, texts[1..]);
      SideOfRemoves(o + 1, texts[1..], v);
    }
  }

  lemma {:induction false} SideOfAdds<T>(n: int, texts: seq<T>, v: Version)
    ensures Side(Adds(n, texts), v) == Numbered(n, if v.New? then texts else [])
    decreases |texts|
  {
    if texts != [] {
      assert Adds(n, texts)[1..] == Adds(n + 1, texts[1..]);
      SideOfAdds(n + 1, texts[1..], v);
    }
  }

  /** A part numbered on from the rows so far keeps the numbering without a gap. */
  lemma Extend<T>(h: seq<DiffLine<T>>, part: seq<DiffLine<T>>, v: Version, first: int, done: seq<T>, more: seq<T>)
    requires Stretch(h, v, first, done) && Stretch(part, v, first + |done|, more)
    ensures Stretch(h + part, v, first, done + more)
  {
    SideConcat(h, part, v);
  }

  /** The middle section restores exactly the old text on one side and the new text on the other. */
  lemma MiddleRestoresBoth<T>(start: nat, was: seq<T>, now: seq<T>, v: Version)
    ensures Stretch(Trimmed(start, was, now), v, start + 1, if v.Old? then was else now)
  {
    var prefix := CommonPrefix(was, now);
    var suffix := CommonSuffix(was, now, prefix);
    PrefixIsMaximal(was, now);
    SuffixIsMaximal(was, now, prefix);
    SameEndsAreSlices(was, now, suffix);
    TrimmingLosesNothing(start, was, now, prefix, suffix, v);
  }

  lemma TrimmingLosesNothing<T>(start: nat, was: seq<T>, now: seq<T>, prefix: nat, suffix: nat, v: Version)
    requires prefix + suffix <= |was| && prefix + suffix <= |now|
    requires was[..prefix] == now[..prefix] && was[|was| - suffix..] == now[|now| - suffix..]
    ensures Stretch(Middle(start, was, now, prefix, suffix), v, start + 1, if v.Old? then was else now)
  {
    MiddleSide(start, was, now, prefix, suffix, v);
    if v.Old? {
      Pieces(was, prefix, suffix);
    } else {
      Pieces(now, prefix, suffix);
    }
  }

  lemma Pieces<T>(s: seq<T>, prefix: nat, suffix: nat)
    requires prefix + suffix <= |s|
    ensures s == s[..prefix] + s[prefix..|s| - suffix] + s[|s| - suffix..]
  {
  }

  lemma SideOfChange<T>(at: int, gone: seq<T>, added: seq<T>, v: Version)
    ensures Stretch(Change(at, gone, added), v, at, if v.Old? then gone else added)
  {
    SideOfRemoves(at, gone, v);
    SideOfAdds(at, added, v);
    SideConcat(Removes(at, gone), Adds(at, added), v);
  }

  lemma MiddleSide<T>(start: nat, was: seq<T>, now: seq<T>, prefix: nat, suffix: nat, v: Version)
    requires prefix + suffix <= |was| && prefix + suffix <= |now|
    ensures var changed := if v.Old? then was[prefix..|was| - suffix] else now[prefix..|now| - suffix];
            Stretch(Middle(start, was, now, prefix, suffix), v,
                    start + 1, was[..prefix] + changed + was[|was| - suffix..])
  {
    var i, j := |was| - suffix, |now| - suffix;
    var a, gone, added, z := was[..prefix], was[prefix..i], now[prefix..j], was[i..];
    assert |a| + |gone| == i && |a| + |added| == j && |a| == prefix;
    AbstractMiddle(start + 1, a, gone, added, z, v);
  }

  lemma AbstractMiddle<T>(f: int, a: seq<T>, gone: seq<T>, added: seq<T>, z: seq<T>, v: Version)
    ensures Stretch(Contexts(f, f, a) + Change(f + |a|, gone, added)
                    + Contexts(f + |a| + |gone|, f + |a| + |added|, z),
                    v, f, a + (if v.Old? then gone else added) + z)
  {
    SideOfContexts(f, f, a, v);
    SideOfChange(f + |a|, gone, added, v);
    SideOfContexts(f + |a| + |gone|, f + |a| + |added|, z, v);
    ThreeParts(Contexts(f, f, a), Change(f + |a|, gone, added), Contexts(f + |a| + |gone|, f + |a| + |added|, z),
               v, f, a, if v.Old? then gone else added, z);
  }

  lemma DotsShowNothing<T>(shown: bool, h: seq<DiffLine<T>>, v: Version)
    ensures Side(Dots(shown) + h, v) == Side(h, v) && Side(h + Dots(shown), v) == Side(h, v)
  {
    SideConcat(Dots(shown), h, v);
    SideConcat(h, Dots(shown), v);
  }

  /** Line numbers run on without a gap through the whole hunk, on either side. */
  lemma SidesAreNumbered<T>(file: seq<T>, start: nat, was: seq<T>, now: seq<T>, v: Version)
    requires start <= |file|
    ensures var b := BeforeStart(start);
            Stretch(Hunk(file, start, was, now), v,
                    b + 1, file[b..start] + (if v.Old? then was else now) + After(file, start + |was|))
  {
    var middle := Trimmed(start, was, now);
    assert Hunk(file, start, was, now) == Around(file, start, |was|, |now|, middle);
    MiddleRestoresBoth(start, was, now, v);
    match v
    case Old => SidesAroundMiddle(file, start, |was|, |now|, middle, was, v);
    case New => SidesAroundMiddle(file, start, |was|, |now|, middle, now, v);
  }

  lemma SidesAroundMiddle<T>(file: seq<T>, start: nat, gone: nat, added: nat,
                             middle: seq<DiffLine<T>>, texts: seq<T>, v: Version)
    requires start <= |file|
    requires |texts| == if v.Old? then gone else added
    requires Stretch(middle, v, start + 1, texts)
    ensures var b := BeforeStart(start);
            Stretch(Around(file, start, gone, added, middle), v,
                    b + 1, file[b..start] + texts + After(file, start + gone))
  {
    var b := BeforeStart(start);
    var window := After(file, start + gone);
    var before := Contexts(b + 1, b + 1, file[b..start]);
    var after := Contexts(start + gone + 1, start + 1 + added, window);
    SideOfContexts(b + 1, b + 1, file[b..start], v);
    SideOfContexts(start + gone + 1, start + 1 + added, window, v);
    ThreeParts(before, middle, after, v, b + 1, file[b..start], texts, window);
    AroundIsItsParts(file, start, gone, added, before, middle, after);
    DottedParts(b > 0, before, middle, after, AfterEnd(file, start + gone) < |file|, v);
  }

  lemma ThreeParts<T>(before: seq<DiffLine<T>>, middle: seq<DiffLine<T>>, after: seq<DiffLine<T>>, v: Version,
                   first: int, a: seq<T>, m: seq<T>, z: seq<T>)
    requires Stretch(before, v, first, a)
    requires Stretch(middle, v, first + |a|, m)
    requires Stretch(after, v, first + |a| + |m|, z)
    ensures Stretch(before + middle + after, v, first, a + m + z)
  {
    Extend(before, middle, v, first, a, m);
    Extend(before + middle, after, v, first, a + m, z);
  }

  lemma DottedParts<T>(d: bool, before: seq<DiffLine<T>>, middle: seq<DiffLine<T>>, after: seq<DiffLine<T>>, e: bool,
                       v: Version)
    ensures Side(Dots(d) + before + middle + after + Dots(e), v) == Side(before + middle + after, v)
  {
    var h := before + middle + after;
    DotsShowNothing(d, h, v);
    assert Dots(d) + before + middle + after == Dots(d) + h;
    DotsShowNothing(e, Dots(d) + h, v);
  }

  // ── When the hunk tells the truth ─────────────────────────────────────────

  /** Every shown row is the line of that number. */
  ghost predicate Shows(side: seq<Row<string>>, lines: seq<string>) {
    forall r :: r in side ==> 1 <= r.number <= |lines| && lines[r.number - 1] == r.text
  }

  ghost predicate SliceAt(lines: seq<string>, at: nat, texts: seq<string>) {
    at + |texts| <= |lines| && lines[at..at + |texts|] == texts
  }

  lemma ShowsSlice(at: nat, texts: seq<string>, lines: seq<string>)
    requires at <= |lines|
    ensures Shows(Numbered(at + 1, texts), lines) <==> SliceAt(lines, at, texts)
  {
    var side := Numbered(at + 1, texts);
    assert forall k :: 0 <= k < |texts| ==> side[k] == Row(at + 1 + k, texts[k]);
    if Shows(side, lines) {
      if texts != [] {
        assert side[|texts| - 1] in side;
      }
      assert forall k :: 0 <= k < |texts| ==> side[k] in side && lines[at + k] == texts[k];
    }
    if SliceAt(lines, at, texts) {
      assert forall k :: 0 <= k < |texts| ==> lines[at..at + |texts|][k] == texts[k];
    }
  }

  lemma SliceConcat(lines: seq<string>, at: nat, a: seq<string>, b: seq<string>)
    ensures SliceAt(lines, at, a + b) <==> SliceAt(lines, at, a) && SliceAt(lines, at + |a|, b)
  {
    if at + |a| + |b| <= |lines| {
      var x, y := lines[at..at + |a|], lines[at + |a|..at + |a| + |b|];
      assert lines[at..at + |a + b|] == x + y;
      assert x + y == a + b ==> x == (x + y)[..|a|] && y == (x + y)[|a|..];
      assert a == (a + b)[..|a|] && b == (a + b)[|a|..];
    }
  }

  /**
   Where the lines after the edit are one place off on the two sides, the window still reads right
   only if it cannot be told from the line before it: the next five lines are all blank.
   */
  ghost predicate Blank(z: seq<string>, ends: bool) {
    && (forall k :: 0 <= k <= CONTEXT && k < |z| ==> z[k] == "")
    && (ends ==> |z| > CONTEXT)
  }

  /** What is left of the lines `z` after the edit, when its text does or does not end a line. */
  function Rest(z: seq<string>, ends: bool): seq<string>
    requires z != []
  {
    if ends then z else z[1..]
  }

  function Take<T>(z: seq<T>): seq<T> {
    z[..Min(CONTEXT, |z|)]
  }

  lemma WindowReadsRight(z: seq<string>, ends: bool, endsNow: bool)
    requires z != [] && (ends || z[0] == "") && (endsNow || z[0] == "")
    ensures Take(Rest(z, ends)) <= Rest(z, endsNow) <==> ends == endsNow || Blank(z, ends)
  {
    var w := Take(Rest(z, ends));
    if ends && !endsNow {
      if w <= z[1..] {
        assert forall k :: 0 <= k < |w| ==> w[k] == z[1..][k];
        StaysBlank(z, |w|);
      }
      if Blank(z, ends) {
        assert forall k :: 0 <= k < |w| ==> w[k] == "" && z[1..][k] == "";
      }
    } else if !ends && endsNow {
      if w <= z {
        assert forall k :: 0 <= k < |w| ==> w[k] == z[k] && w[k] == z[1..][k];
        StaysBlank(z, |w|);
      }
      if Blank(z, ends) {
        assert forall k :: 0 <= k < |w| ==> w[k] == "" && z[k] == "";
      }
    }
  }

  lemma {:induction false} StaysBlank(z: seq<string>, n: nat)
    requires n < |z| && z[0] == ""
    requires forall k :: 0 <= k < n ==> z[k] == z[1..][k]
    ensures forall k :: 0 <= k <= n ==> z[k] == ""
  {
    if n > 0 {
      StaysBlank(z, n - 1);
      assert z[n] == z[1..][n - 1] == z[n - 1];
    }
  }

  lemma SliceOfTail(lines: seq<string>, at: nat, texts: seq<string>)
    requires at <= |lines|
    ensures SliceAt(lines, at, texts) <==> texts <= lines[at..]
  {
    if SliceAt(lines, at, texts) {
      assert lines[at..][..|texts|] == texts;
    }
    if texts <= lines[at..] {
      assert lines[at..at + |texts|] == lines[at..][..|texts|];
    }
  }

  lemma WindowIsTake(file: seq<string>, afterStart: nat)
    requires afterStart <= |file|
    ensures After(file, afterStart) == Take(file[afterStart..])
  {
  }

  /** Rows on either side that run from `b`: what they must match to be shown right. */
  lemma OldReadsRight(file: seq<string>, b: nat, s: nat, o: seq<string>)
    requires b <= s && s + |o| <= |file|
    ensures Shows(Numbered(b + 1, file[b..s] + o + Take(file[s + |o|..])), file) <==> file[s..s + |o|] == o
  {
    ThreeSlices(file, b, file[b..s], o, Take(file[s + |o|..]));
    SliceOfTail(file, s + |o|, Take(file[s + |o|..]));
  }

  lemma NewReadsRight(before: seq<string>, edited: seq<string>, b: nat, s: nat, n: seq<string>, w: seq<string>)
    requires b <= s && s + |n| <= |edited| && before == edited[b..s]
    ensures Shows(Numbered(b + 1, before + n + w), edited)
       <==> edited[s..s + |n|] == n && w <= edited[s + |n|..]
  {
    ThreeSlices(edited, b, before, n, w);
    SliceOfTail(edited, s + |n|, w);
  }

  ghost predicate Fitting(x: seq<string>, y: seq<string>, yNow: seq<string>, z: seq<string>)
    requires x != [] && y != [] && yNow != [] && z != []
  {
    x[|x| - 1] == "" && (y[|y| - 1] == "" || z[0] == "") && (yNow[|yNow| - 1] == "" || z[0] == "")
  }

  /** The lines on either side of an edit: `x` before it, `y` and `yNow` its texts, `z` after it. */
  ghost predicate ReadsRight(x: seq<string>, y: seq<string>, yNow: seq<string>, z: seq<string>)
    requires x != [] && y != [] && yNow != [] && z != []
  {
    var ends, endsNow := y[|y| - 1] == "", yNow[|yNow| - 1] == "";
    Fitting(x, y, yNow, z) && (ends == endsNow || Blank(z, ends))
  }

  /** Both texts stand where the hunk says, and the window after them reads the same on both sides. */
  ghost predicate Placed<T>(file: seq<T>, edited: seq<T>, s: nat, o: seq<T>, n: seq<T>)
    requires s + |o| <= |file| && s + |n| <= |edited|
  {
    file[s..s + |o|] == o && edited[s..s + |n|] == n && Take(file[s + |o|..]) <= edited[s + |n|..]
  }

  lemma MisfitsAreMisplaced(file: seq<string>, edited: seq<string>,
                            x: seq<string>, y: seq<string>, yNow: seq<string>, z: seq<string>)
    requires x != [] && y != [] && yNow != [] && z != []
    requires IsMiddle(file, x, y, z) && IsMiddle(edited, x, yNow, z)
    requires y != [""] || yNow != [""]
    requires !Fitting(x, y, yNow, z)
    ensures !Placed(file, edited, |x| - 1, Kept(y), Kept(yNow))
  {
    var s, o, n := |x| - 1, Kept(y), Kept(yNow);
    if x[s] != "" {
      assert y != [""] ==> file[s..s + |o|] != o;
      assert yNow != [""] ==> edited[s..s + |n|] != n;
    } else if y[|y| - 1] != "" && z[0] != "" {
      assert y != [""] && file[s..s + |o|] != o;
    } else {
      assert yNow != [""] && edited[s..s + |n|] != n;
    }
  }

  lemma FittingIsPlaced<T>(file: seq<T>, edited: seq<T>, s: nat, o: seq<T>, n: seq<T>, rest: seq<T>, restNow: seq<T>)
    requires s + |o| <= |file| && s + |n| <= |edited|
    requires file[s..s + |o|] == o && edited[s..s + |n|] == n
    requires file[s + |o|..] == rest && edited[s + |n|..] == restNow
    ensures Placed(file, edited, s, o, n) <==> Take(rest) <= restNow
  {
  }

  lemma FittingMiddle(file: seq<string>, x: seq<string>, y: seq<string>, z: seq<string>)
    requires x != [] && y != [] && z != []
    requires IsMiddle(file, x, y, z) && x[|x| - 1] == "" && (y[|y| - 1] == "" || z[0] == "")
    ensures var s, o := |x| - 1, Kept(y);
            file[s..s + |o|] == o && file[s + |o|..] == Rest(z, y[|y| - 1] == "")
  {
  }

  lemma FittingReadsRight(file: seq<string>, edited: seq<string>,
                          x: seq<string>, y: seq<string>, yNow: seq<string>, z: seq<string>)
    requires x != [] && y != [] && yNow != [] && z != []
    requires Fitting(x, y, yNow, z)
    requires var s := |x| - 1; s + |Kept(y)| <= |file| && s + |Kept(yNow)| <= |edited|
    requires var s, o, n := |x| - 1, Kept(y), Kept(yNow);
             && file[s..s + |o|] == o && edited[s..s + |n|] == n
             && file[s + |o|..] == Rest(z, y[|y| - 1] == "")
             && edited[s + |n|..] == Rest(z, yNow[|yNow| - 1] == "")
    ensures Placed(file, edited, |x| - 1, Kept(y), Kept(yNow)) <==> ReadsRight(x, y, yNow, z)
  {
    var ends, endsNow := y[|y| - 1] == "", yNow[|yNow| - 1] == "";
    FittingIsPlaced(file, edited, |x| - 1, Kept(y), Kept(yNow), Rest(z, ends), Rest(z, endsNow));
    WindowReadsRight(z, ends, endsNow);
  }

  lemma MiddlesReadRight(file: seq<string>, edited: seq<string>,
                         x: seq<string>, y: seq<string>, yNow: seq<string>, z: seq<string>)
    requires x != [] && y != [] && yNow != [] && z != []
    requires IsMiddle(file, x, y, z) && IsMiddle(edited, x, yNow, z)
    requires y != [""] || yNow != [""]
    ensures Placed(file, edited, |x| - 1, Kept(y), Kept(yNow)) <==> ReadsRight(x, y, yNow, z)
  {
    if Fitting(x, y, yNow, z) {
      FittingMiddle(file, x, y, z);
      FittingMiddle(edited, x, yNow, z);
      FittingReadsRight(file, edited, x, y, yNow, z);
    } else {
      MisfitsAreMisplaced(file, edited, x, y, yNow, z);
    }
  }

  /** Every line the hunk shows is the file's on the old side and the edited file's on the new one. */
  ghost predicate Truthful(file: seq<string>, edited: seq<string>, start: nat, was: seq<string>, now: seq<string>)
    requires start <= |file|
  {
    var h := Hunk(file, start, was, now);
    Shows(Side(h, Old), file) && Shows(Side(h, New), edited)
  }

  lemma TruthIsInTheNumbers(file: seq<string>, edited: seq<string>, start: nat, was: seq<string>, now: seq<string>)
    requires start + |was| <= |file|
    ensures var b := BeforeStart(start);
            var w := Take(file[start + |was|..]);
            Truthful(file, edited, start, was, now)
            <==> Shows(Numbered(b + 1, file[b..start] + was + w), file)
                 && Shows(Numbered(b + 1, file[b..start] + now + w), edited)
  {
    WindowIsTake(file, start + |was|);
    SidesAreNumbered(file, start, was, now, Old);
    SidesAreNumbered(file, start, was, now, New);
  }

  lemma TruthfulIffPlaced(file: seq<string>, edited: seq<string>, s: nat, o: seq<string>, n: seq<string>)
    requires s + |o| <= |file| && s + |n| <= |edited| && file[..s] == edited[..s]
    ensures Truthful(file, edited, s, o, n) <==> Placed(file, edited, s, o, n)
  {
    var b := BeforeStart(s);
    TruthIsInTheNumbers(file, edited, s, o, n);
    OldReadsRight(file, b, s, o);
    assert file[b..s] == edited[b..s] by {
      assert file[b..s] == file[..s][b..] && edited[b..s] == edited[..s][b..];
    }
    NewReadsRight(file[b..s], edited, b, s, n, Take(file[s + |o|..]));
  }

  lemma SameStart(file: seq<string>, edited: seq<string>,
                  x: seq<string>, y: seq<string>, yNow: seq<string>, z: seq<string>)
    requires x != [] && y != [] && yNow != [] && z != []
    requires IsMiddle(file, x, y, z) && IsMiddle(edited, x, yNow, z)
    ensures var s := |x| - 1;
            s + |Kept(y)| <= |file| && s + |Kept(yNow)| <= |edited| && file[..s] == edited[..s]
  {
    var s := |x| - 1;
    assert file[..s] == x[..s];
    assert edited[..s] == x[..s];
  }

  lemma ThreeSlices(lines: seq<string>, at: nat, a: seq<string>, m: seq<string>, z: seq<string>)
    requires at <= |lines|
    ensures Shows(Numbered(at + 1, a + m + z), lines)
       <==> SliceAt(lines, at, a) && SliceAt(lines, at + |a|, m) && SliceAt(lines, at + |a| + |m|, z)
  {
    ShowsSlice(at, a + m + z, lines);
    SliceConcat(lines, at, a + m, z);
    SliceConcat(lines, at, a, m);
  }

  /**
   For a match at its own offset, the hunk shows the file before and after the edit line for line
   exactly when the match starts a line, each text stops where a line does, and both or neither
   take their last newline along (or nothing but blank lines follow).
   */
  lemma HunkAgreesWithBothTexts(pre: string, was: string, now: string, suf: string)
    requires was != "" || now != ""
    ensures Newlines(pre) <= |Split(pre + was + suf)|
    ensures Truthful(Split(pre + was + suf), Split(pre + now + suf),
                     Newlines(pre), PreviewLines(was), PreviewLines(now))
       <==> (&& EndsLine(pre) && Fits(was, suf) && Fits(now, suf)
             && (EndsLine(was) == EndsLine(now) || Blank(Split(suf), EndsLine(was))))
  {
    MiddleLines(pre, was, suf);
    MiddleLines(pre, now, suf);
    SplitLength(pre);
    var file, edited := Split(pre + was + suf), Split(pre + now + suf);
    SameStart(file, edited, Split(pre), Split(was), Split(now), Split(suf));
    MiddlesReadRight(file, edited, Split(pre), Split(was), Split(now), Split(suf));
    TruthfulIffPlaced(file, edited, Newlines(pre), PreviewLines(was), PreviewLines(now));
  }

  /** An edit inside a line is numbered as that line but shows only the edited piece of it. */
  lemma MidLineEditsMislead()
    ensures !Truthful(Split("xab"), Split("xcb"), Newlines("x"), PreviewLines("a"), PreviewLines("c"))
  {
    LastLineEmpty("x");
    assert "x" + "a" + "b" == "xab" && "x" + "c" + "b" == "xcb";
    HunkAgreesWithBothTexts("x", "a", "c", "b");
  }

  /** The match of the text at the start of `suf` counts exactly the newlines before it. */
  lemma MatchOffset(pre: string, was: string, suf: string)
    ensures Before(pre + was + suf, |pre|) == pre
  {
  }
}
