/** How much a hunk shows: which lines around the edit, which of the edit's own, and where it says there are more. */
module EditExtent {
  import opened Base
  import opened Lines
  import opened EditHunk

  // ── Which lines are shown ─────────────────────────────────────────────────

  ghost predicate ShowsLine<T>(h: seq<DiffLine<T>>, v: Version, n: int) {
    exists r :: r in Side(h, v) && r.number == n
  }

  lemma NumberedFrom<T>(first: int, texts: seq<T>, n: int)
    ensures (exists r :: r in Numbered(first, texts) && r.number == n) <==> first <= n < first + |texts|
  {
    if first <= n < first + |texts| {
      assert Numbered(first, texts)[n - first].number == n;
    }
  }

  /**
   A side of the hunk shows the edit's own lines there and up to four lines of the file on either hand,
   as many as there are: nothing else, and none of them twice over.
   */
  lemma FourLinesAround<T>(file: seq<T>, start: nat, was: seq<T>, now: seq<T>, v: Version, n: int)
    requires start <= |file|
    ensures var own := if v.Old? then |was| else |now|;
            ShowsLine(Hunk(file, start, was, now), v, n)
            <==> (&& 1 <= n && start - 4 < n <= start + own + 4
                  && (n > start + own ==> n - own + |was| <= |file|))
  {
    var b := BeforeStart(start);
    var texts := file[b..start] + (if v.Old? then was else now) + After(file, start + |was|);
    SidesAreNumbered(file, start, was, now, v);
    NumberedFrom(b + 1, texts, n);
  }

  // ── Where there is more ───────────────────────────────────────────────────

  ghost predicate NoDots<T>(h: seq<DiffLine<T>>) {
    forall i :: 0 <= i < |h| ==> !h[i].Ellipsis?
  }

  lemma TrimmedHasNoDots<T>(start: nat, was: seq<T>, now: seq<T>)
    ensures NoDots(Trimmed(start, was, now))
  {
  }

  lemma DottedEnds<T>(a: bool, inner: seq<DiffLine<T>>, z: bool, k: nat)
    requires NoDots(inner) && (a || z ==> inner != []) && k < |Dots<T>(a) + inner + Dots(z)|
    ensures var h := Dots(a) + inner + Dots(z);
            h[k].Ellipsis? <==> (k == 0 && a) || (k == |h| - 1 && z)
  {
  }

  lemma ContextsAreLines<T>(o: int, n: int, texts: seq<T>)
    ensures NoDots(Contexts(o, n, texts)) && Unchanging(Contexts(o, n, texts)) && |Contexts(o, n, texts)| == |texts|
  {
  }

  lemma NoDotsJoined<T>(a: seq<DiffLine<T>>, m: seq<DiffLine<T>>, z: seq<DiffLine<T>>)
    requires NoDots(a) && NoDots(m) && NoDots(z)
    ensures NoDots(a + m + z)
  {
  }

  /** Lines are left out on a side exactly if four are shown there and there are more. */
  lemma WindowSizes<T>(file: seq<T>, start: nat, gone: nat)
    requires start <= |file|
    ensures BeforeStart(start) > 0 <==> start > 4
    ensures AfterEnd(file, start + gone) < |file| <==> start + gone + 4 < |file|
    ensures start > 4 ==> |file[BeforeStart(start)..start]| == 4
    ensures start + gone + 4 < |file| ==> |After(file, start + gone)| == 4
  {
  }

  /** Between its dots a hunk has lines only, and some if there are dots at all. */
  lemma InnerLines<T>(file: seq<T>, start: nat, gone: nat, added: nat, middle: seq<DiffLine<T>>)
    returns (inner: seq<DiffLine<T>>)
    requires start <= |file| && NoDots(middle)
    ensures NoDots(inner) && (start > 4 || start + gone + 4 < |file| ==> inner != [])
    ensures Around(file, start, gone, added, middle) == Dots(start > 4) + inner + Dots(start + gone + 4 < |file|)
  {
    var b := BeforeStart(start);
    var before := Contexts(b + 1, b + 1, file[b..start]);
    var after := Contexts(start + gone + 1, start + 1 + added, After(file, start + gone));
    ContextsAreLines(b + 1, b + 1, file[b..start]);
    ContextsAreLines(start + gone + 1, start + 1 + added, After(file, start + gone));
    WindowSizes(file, start, gone);
    NoDotsJoined(before, middle, after);
    inner := before + middle + after;
    FiveParts(Dots(b > 0), before, middle, after, Dots(AfterEnd(file, start + gone) < |file|));
  }

  lemma FiveParts<T>(a: seq<T>, b: seq<T>, m: seq<T>, y: seq<T>, z: seq<T>)
    ensures a + b + m + y + z == a + (b + m + y) + z
  {
    Assoc(a, b, m);
    Assoc(a, b + m, y);
  }

  /** A hunk opens with dots exactly if it leaves lines out before, ends with them exactly if after, and has no others. */
  lemma DotsSayThereIsMore<T>(file: seq<T>, start: nat, was: seq<T>, now: seq<T>, k: nat)
    requires start <= |file| && k < |Hunk(file, start, was, now)|
    ensures var h := Hunk(file, start, was, now);
            h[k].Ellipsis? <==> (k == 0 && start > 4) || (k == |h| - 1 && start + |was| + 4 < |file|)
  {
    TrimmedHasNoDots(start, was, now);
    var inner := InnerLines(file, start, |was|, |now|, Trimmed(start, was, now));
    DottedEnds(start > 4, inner, start + |was| + 4 < |file|, k);
  }

  // ── Which lines count as changed ──────────────────────────────────────────

  function RemovedTexts<T>(h: seq<DiffLine<T>>): seq<T> {
    if h == [] then [] else (if h[0].Remove? then [h[0].text] else []) + RemovedTexts(h[1..])
  }

  function AddedTexts<T>(h: seq<DiffLine<T>>): seq<T> {
    if h == [] then [] else (if h[0].Add? then [h[0].text] else []) + AddedTexts(h[1..])
  }

  lemma {:induction false} TextsConcat<T>(g: seq<DiffLine<T>>, h: seq<DiffLine<T>>)
    ensures RemovedTexts(g + h) == RemovedTexts(g) + RemovedTexts(h)
    ensures AddedTexts(g + h) == AddedTexts(g) + AddedTexts(h)
  {
    if g == [] {
      assert g + h == h;
    } else {
      assert (g + h)[1..] == g[1..] + h;
      TextsConcat(g[1..], h);
      Assoc(if g[0].Remove? then [g[0].text] else [], RemovedTexts(g[1..]), RemovedTexts(h));
      Assoc(if g[0].Add? then [g[0].text] else [], AddedTexts(g[1..]), AddedTexts(h));
    }
  }

  lemma {:induction false} NothingChanged<T>(h: seq<DiffLine<T>>)
    requires Unchanging(h)
    ensures RemovedTexts(h) == [] && AddedTexts(h) == []
  {
    if h != [] {
      NothingChanged(h[1..]);
    }
  }

  lemma {:induction false} TextsOfRemoves<T>(at: int, texts: seq<T>)
    ensures RemovedTexts(Removes(at, texts)) == texts && AddedTexts(Removes(at, texts)) == []
    decreases |texts|
  {
    if texts != [] {
      assert Removes(at, texts)[1..] == Removes(at + 1, texts[1..]);
      TextsOfRemoves(at + 1, texts[1..]);
    }
  }

  lemma {:induction false} TextsOfAdds<T>(at: int, texts: seq<T>)
    ensures RemovedTexts(Adds(at, texts)) == [] && AddedTexts(Adds(at, texts)) == texts
    decreases |texts|
  {
    if texts != [] {
      assert Adds(at, texts)[1..] == Adds(at + 1, texts[1..]);
      TextsOfAdds(at + 1, texts[1..]);
    }
  }

  lemma TextsOfChange<T>(at: int, gone: seq<T>, added: seq<T>)
    ensures RemovedTexts(Change(at, gone, added)) == gone && AddedTexts(Change(at, gone, added)) == added
  {
    TextsOfRemoves(at, gone);
    TextsOfAdds(at, added);
    TextsConcat(Removes(at, gone), Adds(at, added));
    assert gone + [] == gone && [] + added == added;
  }

  /** The changed part of a hunk between two parts that change nothing. */
  lemma TextsBetween<T>(before: seq<DiffLine<T>>, at: int, gone: seq<T>, added: seq<T>, after: seq<DiffLine<T>>)
    requires Unchanging(before) && Unchanging(after)
    ensures var h := before + Change(at, gone, added) + after;
            RemovedTexts(h) == gone && AddedTexts(h) == added
  {
    NothingChanged(before);
    NothingChanged(after);
    TextsOfChange(at, gone, added);
    TextsConcat(before, Change(at, gone, added));
    TextsConcat(before + Change(at, gone, added), after);
    assert [] + gone + [] == gone && [] + added + [] == added;
  }

  /** What the hunk shows before its changed lines, and after them, beside the edit's own lines there. */
  function Lead<T>(file: seq<T>, start: nat, c: seq<DiffLine<T>>): seq<DiffLine<T>>
    requires start <= |file|
  {
    var b := BeforeStart(start);
    Dots(b > 0) + Contexts(b + 1, b + 1, file[b..start]) + c
  }

  function Trail<T>(file: seq<T>, start: nat, gone: nat, added: nat, x: seq<DiffLine<T>>): seq<DiffLine<T>> {
    x + Contexts(start + gone + 1, start + 1 + added, After(file, start + gone))
    + Dots(AfterEnd(file, start + gone) < |file|)
  }

  lemma AroundRegrouped<T>(file: seq<T>, start: nat, gone: nat, added: nat, c: seq<DiffLine<T>>, m: seq<DiffLine<T>>,
                           x: seq<DiffLine<T>>)
    requires start <= |file|
    ensures Around(file, start, gone, added, c + m + x) == Lead(file, start, c) + m + Trail(file, start, gone, added, x)
  {
    var b := BeforeStart(start);
    Regroup(Dots(b > 0), Contexts(b + 1, b + 1, file[b..start]), c, m, x,
            Contexts(start + gone + 1, start + 1 + added, After(file, start + gone)),
            Dots(AfterEnd(file, start + gone) < |file|));
  }

  lemma Regroup<T>(a: seq<T>, b: seq<T>, c: seq<T>, m: seq<T>, x: seq<T>, y: seq<T>, z: seq<T>)
    ensures a + b + (c + m + x) + y + z == (a + b + c) + m + (x + y + z)
  {
    Assoc(a + b, c + m, x);
    Assoc(a + b, c, m);
    Assoc((a + b + c) + m, x, y);
    Assoc((a + b + c) + m, x + y, z);
  }

  /** A trimmed pair of texts: the parts cut off are the same, and what is left differs at both ends. */
  ghost predicate Tight<T>(was: seq<T>, now: seq<T>, same: seq<T>, gone: seq<T>, added: seq<T>, alike: seq<T>) {
    && was == same + gone + alike && now == same + added + alike
    && (gone != [] && added != [] ==> gone[0] != added[0] && gone[|gone| - 1] != added[|added| - 1])
  }

  lemma TrimmingIsTight<T>(was: seq<T>, now: seq<T>)
    ensures var prefix := CommonPrefix(was, now);
            var suffix := CommonSuffix(was, now, prefix);
            Tight(was, now, was[..prefix], was[prefix..|was| - suffix], now[prefix..|now| - suffix],
                  was[|was| - suffix..])
  {
    var prefix := CommonPrefix(was, now);
    var suffix := CommonSuffix(was, now, prefix);
    PrefixIsMaximal(was, now);
    SuffixIsMaximal(was, now, prefix);
    SameEndsAreSlices(was, now, suffix);
    Pieces(was, prefix, suffix);
    Pieces(now, prefix, suffix);
    var gone, added := was[prefix..|was| - suffix], now[prefix..|now| - suffix];
    if gone != [] && added != [] {
      assert FromEnd(was, suffix) == gone[|gone| - 1] && FromEnd(now, suffix) == added[|added| - 1];
    }
  }

  /** No line is added before another is removed. */
  ghost predicate RemovalsFirst<T>(h: seq<DiffLine<T>>) {
    forall i, j :: 0 <= i < j < |h| ==> !(h[i].Add? && h[j].Remove?)
  }

  lemma TrimmedParts<T>(start: nat, was: seq<T>, now: seq<T>, gone: seq<T>, added: seq<T>)
    returns (c: seq<DiffLine<T>>, at: int, x: seq<DiffLine<T>>)
    requires var prefix := CommonPrefix(was, now);
             var suffix := CommonSuffix(was, now, prefix);
             gone == was[prefix..|was| - suffix] && added == now[prefix..|now| - suffix]
    ensures Unchanging(c) && Unchanging(x) && Trimmed(start, was, now) == c + Change(at, gone, added) + x
  {
    var prefix := CommonPrefix(was, now);
    var suffix := CommonSuffix(was, now, prefix);
    at := start + 1 + prefix;
    c := Contexts(start + 1, start + 1, was[..prefix]);
    x := Contexts(start + 1 + |was| - suffix, start + 1 + |now| - suffix, was[|was| - suffix..]);
    ContextsAreLines(start + 1, start + 1, was[..prefix]);
    ContextsAreLines(start + 1 + |was| - suffix, start + 1 + |now| - suffix, was[|was| - suffix..]);
    MiddleIsItsParts(start, was, now, prefix, suffix, c, Change(at, gone, added), x);
  }

  /** Lines shown as they were, or dots. */
  ghost predicate Unchanging<T>(h: seq<DiffLine<T>>) {
    forall i :: 0 <= i < |h| ==> h[i].Context? || h[i].Ellipsis?
  }

  lemma UnchangingJoined<T>(a: seq<DiffLine<T>>, m: seq<DiffLine<T>>, z: seq<DiffLine<T>>)
    requires Unchanging(a) && Unchanging(m) && Unchanging(z)
    ensures Unchanging(a + m + z)
  {
  }

  lemma EndsChangeNothing<T>(file: seq<T>, start: nat, gone: nat, added: nat, c: seq<DiffLine<T>>, x: seq<DiffLine<T>>)
    requires start <= |file| && Unchanging(c) && Unchanging(x)
    ensures Unchanging(Lead(file, start, c)) && Unchanging(Trail(file, start, gone, added, x))
  {
    var b := BeforeStart(start);
    ContextsAreLines(b + 1, b + 1, file[b..start]);
    ContextsAreLines(start + gone + 1, start + 1 + added, After(file, start + gone));
    UnchangingJoined(Dots(b > 0), Contexts(b + 1, b + 1, file[b..start]), c);
    UnchangingJoined(x, Contexts(start + gone + 1, start + 1 + added, After(file, start + gone)),
                     Dots(AfterEnd(file, start + gone) < |file|));
  }

  lemma MarkedLines<T>(file: seq<T>, start: nat, was: seq<T>, now: seq<T>, gone: seq<T>, added: seq<T>)
    requires start <= |file|
    requires var prefix := CommonPrefix(was, now);
             var suffix := CommonSuffix(was, now, prefix);
             gone == was[prefix..|was| - suffix] && added == now[prefix..|now| - suffix]
    ensures var h := Hunk(file, start, was, now);
            RemovedTexts(h) == gone && AddedTexts(h) == added && RemovalsFirst(h)
  {
    var c, at, x := TrimmedParts(start, was, now, gone, added);
    AroundRegrouped(file, start, |was|, |now|, c, Change(at, gone, added), x);
    EndsChangeNothing(file, start, |was|, |now|, c, x);
    TextsBetween(Lead(file, start, c), at, gone, added, Trail(file, start, |was|, |now|, x));
    RemovesFirst(Lead(file, start, c), at, gone, added, Trail(file, start, |was|, |now|, x));
  }

  /**
   Only what differs is shown as changed: taking the removed lines out of the old text and putting the added
   ones in gives the new one, and they agree neither in their first line nor in their last. Nothing is added
   before it is removed.
   */
  lemma OnlyDifferencesAreMarked<T>(file: seq<T>, start: nat, was: seq<T>, now: seq<T>)
    returns (same: seq<T>, alike: seq<T>)
    requires start <= |file|
    ensures var h := Hunk(file, start, was, now);
            Tight(was, now, same, RemovedTexts(h), AddedTexts(h), alike) && RemovalsFirst(h)
  {
    var prefix := CommonPrefix(was, now);
    var suffix := CommonSuffix(was, now, prefix);
    TrimmingIsTight(was, now);
    MarkedLines(file, start, was, now, was[prefix..|was| - suffix], now[prefix..|now| - suffix]);
    same, alike := was[..prefix], was[|was| - suffix..];
  }

  lemma RemovesFirst<T>(before: seq<DiffLine<T>>, at: int, gone: seq<T>, added: seq<T>, after: seq<DiffLine<T>>)
    requires Unchanging(before) && Unchanging(after)
    ensures var h := before + Change(at, gone, added) + after;
            RemovalsFirst(h)
  {
    var h := before + Change(at, gone, added) + after;
    forall j | 0 <= j < |h| && h[j].Remove? ensures j < |before| + |gone| {
    }
    forall i | 0 <= i < |h| && h[i].Add? ensures |before| + |gone| <= i {
    }
  }
}
