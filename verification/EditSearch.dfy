/** Where each edit of a call is looked for in the file, and the hunks shown for the whole call. */
module EditSearch {
  import opened Base
  import opened Lines
  import opened EditHunk

  datatype Edit = Edit(oldText: string, newText: string)

  predicate MatchAt(text: string, needle: string, k: nat) {
    k + |needle| <= |text| && text[k..k + |needle|] == needle
  }

  function Find(text: string, needle: string, from: nat): Option<nat>
    decreases |text| + 1 - from
  {
    if from + |needle| > |text| then None
    else if text[from..from + |needle|] == needle then Some(from)
    else Find(text, needle, from + 1)
  }

  /** It is the first match at or after `from`, and there is none exactly if none is found. */
  lemma {:induction false} FindIsFirst(text: string, needle: string, from: nat)
    ensures var k := Find(text, needle, from);
            && (k.Some? ==> from <= k.value && MatchAt(text, needle, k.value))
            && (forall j :: from <= j && (k.None? || j < k.value) ==> !MatchAt(text, needle, j))
    decreases |text| + 1 - from
  {
    if from + |needle| <= |text| && text[from..from + |needle|] != needle {
      FindIsFirst(text, needle, from + 1);
    }
  }

  /** The next match, else the first one in the file, else where the search stands. */
  function StartOf(text: string, oldText: string, searchFrom: nat): nat {
    if oldText == "" then searchFrom
    else
      var next := Find(text, oldText, searchFrom);
      if next.Some? then next.value
      else
        var any := Find(text, oldText, 0);
        if any.Some? then any.value else searchFrom
  }

  function HunkFor(text: string, e: Edit, offset: nat): seq<DiffLine<string>> {
    BeforeFits(text, offset);
    Hunk(Split(text), Newlines(Before(text, offset)), PreviewLines(e.oldText), PreviewLines(e.newText))
  }

  predicate Says(e: Edit) {
    e.oldText != "" || e.newText != ""
  }

  /** Where the search for the `i`-th edit starts: after the last match. */
  function From(text: string, edits: seq<Edit>, i: nat): nat
    requires i <= |edits|
  {
    if i == 0 then 0
    else
      var from, e := From(text, edits, i - 1), edits[i - 1];
      if Says(e) then StartOf(text, e.oldText, from) + Max(|e.oldText|, 1) else from
  }

  /** How many of the first `i` edits say anything. */
  function Shown(edits: seq<Edit>, i: nat): nat
    requires i <= |edits|
  {
    if i == 0 then 0 else Shown(edits, i - 1) + if Says(edits[i - 1]) then 1 else 0
  }

  lemma KeptIsNotEmpty(t: string)
    ensures t != "" ==> PreviewLines(t) != []
  {
    SplitEmpty(t);
  }

  /** An edit that says anything shows something, so no hunk is ever dropped as empty. */
  lemma HunksAreNeverEmpty(text: string, e: Edit, offset: nat)
    requires Says(e)
    ensures HunkFor(text, e, offset) != []
  {
    KeptIsNotEmpty(e.oldText);
    KeptIsNotEmpty(e.newText);
    BeforeFits(text, offset);
    var v := if e.oldText != "" then Old else New;
    SidesAreNumbered(Split(text), Newlines(Before(text, offset)), PreviewLines(e.oldText), PreviewLines(e.newText), v);
    assert Side(HunkFor(text, e, offset), v) != [];
  }

  /** The hunk of the `i`-th edit stands after those of the edits before it that say anything. */
  ghost predicate HunkStands(text: string, edits: seq<Edit>, hunks: seq<seq<DiffLine<string>>>, i: nat)
    requires i < |edits|
  {
    Says(edits[i]) ==>
      && Shown(edits, i) < |hunks|
      && hunks[Shown(edits, i)] == HunkFor(text, edits[i], StartOf(text, edits[i].oldText, From(text, edits, i)))
  }

  ghost predicate AllStand(text: string, edits: seq<Edit>, hunks: seq<seq<DiffLine<string>>>, n: nat)
    requires n <= |edits|
  {
    forall i :: 0 <= i < n ==> HunkStands(text, edits, hunks, i)
  }

  /** One hunk for each edit that says anything, in order; without the file there is nothing to show. */
  method EnrichEdits(text: Option<string>, edits: seq<Edit>) returns (hunks: seq<seq<DiffLine<string>>>)
    ensures text.None? ==> hunks == []
    ensures text.Some? ==> |hunks| == Shown(edits, |edits|)
    ensures text.Some? ==> forall i :: 0 <= i < |edits| ==> HunkStands(text.value, edits, hunks, i)
  {
    hunks := [];
    if text.Some? {
      hunks := ShowEdits(text.value, edits);
      assert AllStand(text.value, edits, hunks, |edits|);
    }
  }

  method ShowEdits(text: string, edits: seq<Edit>) returns (hunks: seq<seq<DiffLine<string>>>)
    ensures |hunks| == Shown(edits, |edits|)
    ensures AllStand(text, edits, hunks, |edits|)
  {
    hunks := [];
    var searchFrom: nat := 0;
    for i := 0 to |edits|
      invariant searchFrom == From(text, edits, i) && |hunks| == Shown(edits, i)
      invariant AllStand(text, edits, hunks, i)
    {
      var e := edits[i];
      if Says(e) {
        var startOffset := StartOf(text, e.oldText, searchFrom);
        var hunk := ShowEdit(text, e, startOffset);
        HunkJoins(text, edits, hunks, i, hunk);
        hunks := hunks + [hunk];
        searchFrom := startOffset + Max(|e.oldText|, 1);
      } else {
        SilentEditStands(text, edits, hunks, i);
      }
    }
  }

  lemma HunkJoins(text: string, edits: seq<Edit>, hunks: seq<seq<DiffLine<string>>>, i: nat,
                  hunk: seq<DiffLine<string>>)
    requires i < |edits| && |hunks| == Shown(edits, i) && AllStand(text, edits, hunks, i)
    requires hunk == HunkFor(text, edits[i], StartOf(text, edits[i].oldText, From(text, edits, i)))
    ensures AllStand(text, edits, hunks + [hunk], i + 1)
  {
    NewHunkStands(text, edits, hunks, i, hunk);
    forall j | 0 <= j < i ensures HunkStands(text, edits, hunks + [hunk], j) {
      HunkStays(text, edits, hunks, hunk, j);
    }
  }

  lemma SilentEditStands(text: string, edits: seq<Edit>, hunks: seq<seq<DiffLine<string>>>, i: nat)
    requires i < |edits| && !Says(edits[i]) && AllStand(text, edits, hunks, i)
    ensures AllStand(text, edits, hunks, i + 1)
  {
  }

  lemma HunkStays(text: string, edits: seq<Edit>, hunks: seq<seq<DiffLine<string>>>, hunk: seq<DiffLine<string>>,
                  j: nat)
    requires j < |edits| && HunkStands(text, edits, hunks, j)
    ensures HunkStands(text, edits, hunks + [hunk], j)
  {
    if Says(edits[j]) {
      var k := Shown(edits, j);
      assert (hunks + [hunk])[k] == hunks[k];
    }
  }

  lemma NewHunkStands(text: string, edits: seq<Edit>, hunks: seq<seq<DiffLine<string>>>, i: nat,
                      hunk: seq<DiffLine<string>>)
    requires i < |edits| && |hunks| == Shown(edits, i)
    requires hunk == HunkFor(text, edits[i], StartOf(text, edits[i].oldText, From(text, edits, i)))
    ensures HunkStands(text, edits, hunks + [hunk], i)
  {
    assert (hunks + [hunk])[|hunks|] == hunk;
  }

  method ShowEdit(text: string, e: Edit, startOffset: nat) returns (hunk: seq<DiffLine<string>>)
    requires Says(e)
    ensures hunk != [] && hunk == HunkFor(text, e, startOffset)
  {
    hunk := BuildEditHunk(text, startOffset, e.oldText, e.newText);
    HunksAreNeverEmpty(text, e, startOffset);
  }

  /** The match starts a line, and both texts stop where a line does, alike. */
  ghost predicate LineAligned(pre: string, e: Edit, suf: string) {
    && EndsLine(pre) && Fits(e.oldText, suf) && Fits(e.newText, suf)
    && (EndsLine(e.oldText) == EndsLine(e.newText) || Blank(Split(suf), EndsLine(e.oldText)))
  }

  /** The offset found is that of a match. */
  lemma OffsetMatches(text: string, oldText: string, searchFrom: nat)
    requires oldText != "" && Find(text, oldText, 0).Some?
    ensures MatchAt(text, oldText, StartOf(text, oldText, searchFrom))
  {
    FindIsFirst(text, oldText, searchFrom);
    FindIsFirst(text, oldText, 0);
  }

  lemma SplitAround<T>(s: seq<T>, k: nat, n: nat)
    requires k + n <= |s|
    ensures s == s[..k] + s[k..k + n] + s[k + n..]
  {
  }

  /** The offset found splits the file around a match. */
  lemma OffsetSplits(text: string, e: Edit, searchFrom: nat)
    requires e.oldText == "" || Find(text, e.oldText, 0).Some?
    ensures var pre := Before(text, StartOf(text, e.oldText, searchFrom));
            |pre| + |e.oldText| <= |text| && text == pre + e.oldText + text[|pre| + |e.oldText|..]
  {
    var offset := StartOf(text, e.oldText, searchFrom);
    if e.oldText == "" {
      SplitAround(text, |Before(text, offset)|, 0);
    } else {
      OffsetMatches(text, e.oldText, searchFrom);
      SplitAround(text, offset, |e.oldText|);
    }
  }

  ghost predicate Occurs(text: string, oldText: string, from: nat) {
    exists j :: from <= j && MatchAt(text, oldText, j)
  }

  /**
   Which match an edit is shown at: the next one, at or after where the search stands; if there is none ahead,
   the first in the file; and if the file has none, or the edit replaces nothing, where the search stands.
   */
  lemma WhichMatch(text: string, oldText: string, from: nat)
    ensures var at := StartOf(text, oldText, from);
            && (oldText != "" && Occurs(text, oldText, from) ==>
                  from <= at && MatchAt(text, oldText, at)
                  && forall j :: from <= j < at ==> !MatchAt(text, oldText, j))
            && (oldText != "" && !Occurs(text, oldText, from) && Occurs(text, oldText, 0) ==>
                  at < from && MatchAt(text, oldText, at)
                  && forall j :: 0 <= j < at ==> !MatchAt(text, oldText, j))
            && (oldText == "" || !Occurs(text, oldText, 0) ==> at == from)
  {
    FindIsFirst(text, oldText, from);
    FindIsFirst(text, oldText, 0);
  }

  /** Where the `i`-th edit is shown. */
  function Place(text: string, edits: seq<Edit>, i: nat): nat
    requires i < |edits|
  {
    StartOf(text, edits[i].oldText, From(text, edits, i))
  }

  /** The edit is found ahead of the search, or needs no finding. */
  ghost predicate Ahead(text: string, edits: seq<Edit>, i: nat)
    requires i < |edits|
  {
    edits[i].oldText == "" || Occurs(text, edits[i].oldText, From(text, edits, i))
  }

  lemma {:induction false} SearchMovesOn(text: string, edits: seq<Edit>, i: nat, j: nat)
    requires i <= j <= |edits|
    requires forall k :: i <= k < j && Says(edits[k]) ==> Ahead(text, edits, k)
    ensures From(text, edits, i) <= From(text, edits, j)
    decreases j
  {
    if i < j {
      SearchMovesOn(text, edits, i, j - 1);
      if Says(edits[j - 1]) {
        WhichMatch(text, edits[j - 1].oldText, From(text, edits, j - 1));
      }
    }
  }

  /** Edits found one ahead of the other are shown in order, at matches that do not overlap or coincide. */
  lemma LaterEditsLieBehind(text: string, edits: seq<Edit>, i: nat, j: nat)
    requires i < j < |edits| && Says(edits[i]) && Says(edits[j])
    requires forall k :: i < k <= j && Says(edits[k]) ==> Ahead(text, edits, k)
    ensures Place(text, edits, i) + |edits[i].oldText| <= Place(text, edits, j)
    ensures Place(text, edits, i) < Place(text, edits, j)
  {
    SearchMovesOn(text, edits, i + 1, j);
    WhichMatch(text, edits[j].oldText, From(text, edits, j));
  }

  /**
   For an edit whose old text is in the file (or empty), the hunk shows the file and the edited file
   line for line exactly when the match found is line-aligned.
   */
  lemma FoundEditsAreTruthfulIff(text: string, e: Edit, searchFrom: nat, pre: string, suf: string)
    requires Says(e)
    requires e.oldText == "" || Find(text, e.oldText, 0).Some?
    requires pre == Before(text, StartOf(text, e.oldText, searchFrom))
    requires |pre| + |e.oldText| <= |text| && suf == text[|pre| + |e.oldText|..]
    ensures text == pre + e.oldText + suf
    ensures Newlines(pre) <= |Split(text)|
    ensures Truthful(Split(text), Split(pre + e.newText + suf), Newlines(pre),
                     PreviewLines(e.oldText), PreviewLines(e.newText))
       <==> LineAligned(pre, e, suf)
  {
    OffsetSplits(text, e, searchFrom);
    HunkAgreesWithBothTexts(pre, e.oldText, e.newText, suf);
  }
}
