/**
 * The string-accumulation rules of the transcription provider: how a
 * recogniser `result` event is turned into text and appended to the
 * transcript, on the live-recording path and on the file path.
 *
 * A recogniser event carries a list of results and the index of the first
 * result that changed (`resultIndex`); each result contributes the text of
 * its first alternative and an `isFinal` flag.
 */
module TranscriptText {

  /** One entry of `event.results`: the first alternative's text and whether it is final. */
  datatype Segment = Segment(text: string, isFinal: bool)

  /** A recogniser `result` event. The platform gives `resultIndex` as an unsigned index. */
  datatype ResultEvent = ResultEvent(resultIndex: nat, results: seq<Segment>)

  /** The positions the handlers' loops visit: `resultIndex` up to the end of `results`. */
  function Window(ev: ResultEvent): (w: seq<Segment>)
    ensures |w| == if ev.resultIndex <= |ev.results| then |ev.results| - ev.resultIndex else 0
    ensures forall k :: 0 <= k < |w| ==> w[k] == ev.results[ev.resultIndex + k]
  {
    if ev.resultIndex <= |ev.results| then ev.results[ev.resultIndex..] else []
  }

  /** The live handler's `finalTranscript`: the final texts appended left to right. */
  function Finals(s: seq<Segment>): string
  {
    if s == [] then ""
    else Finals(s[..|s| - 1]) + (if s[|s| - 1].isFinal then s[|s| - 1].text else "")
  }

  /** The live handler's `interimTranscript`: the interim texts appended left to right. */
  function Interims(s: seq<Segment>): string
  {
    if s == [] then ""
    else Interims(s[..|s| - 1]) + (if s[|s| - 1].isFinal then "" else s[|s| - 1].text)
  }

  /** What the file handler appends: a space and the text, once per final segment. */
  function Spaced(s: seq<Segment>): string
  {
    if s == [] then ""
    else Spaced(s[..|s| - 1]) + (if s[|s| - 1].isFinal then " " + s[|s| - 1].text else "")
  }

  /** The number of final segments. */
  function FinalCount(s: seq<Segment>): nat
  {
    if s == [] then 0 else FinalCount(s[..|s| - 1]) + (if s[|s| - 1].isFinal then 1 else 0)
  }

  // ---------------------------------------------------------------------
  // Reference definitions, built from the front: the final texts in index
  // order, and the two ways of joining them.
  // ---------------------------------------------------------------------

  /** The texts of the final segments, in index order. */
  function FinalTexts(s: seq<Segment>): seq<string>
  {
    if s == [] then [] else (if s[0].isFinal then [s[0].text] else []) + FinalTexts(s[1..])
  }

  /** Plain concatenation of a list of texts. */
  function Concat(ts: seq<string>): string
  {
    if ts == [] then "" else ts[0] + Concat(ts[1..])
  }

  /** Concatenation of a list of texts, each preceded by one space. */
  function ConcatSpaced(ts: seq<string>): string
  {
    if ts == [] then "" else " " + ts[0] + ConcatSpaced(ts[1..])
  }

  // ---------------------------------------------------------------------
  // The two updaters handed to `setTranscript`.
  // ---------------------------------------------------------------------

  /**
   * The live path's updater: a non-empty final text is added after one
   * separating space; an empty one (JavaScript falsy) leaves `prev` as is.
   */
  function LiveAppend(prev: string, finalText: string): (r: string)
    ensures prev <= r
    ensures finalText == "" ==> r == prev
    ensures finalText != "" ==> |r| == |prev| + 1 + |finalText| && r[|prev|] == ' ' && r[|prev| + 1..] == finalText
  {
    if finalText != "" then prev + " " + finalText else prev
  }

  /** The transcript after one live `result` event. */
  function LiveUpdate(prev: string, ev: ResultEvent): (r: string)
    ensures prev <= r
  {
    LiveAppend(prev, Finals(Window(ev)))
  }

  /** The transcript after one file-path `result` event: one updater per final segment. */
  function FileUpdate(prev: string, ev: ResultEvent): (r: string)
    ensures prev <= r
    ensures |r| == |prev| + FinalCount(Window(ev)) + |Finals(Window(ev))|
  {
    SpacedLength(Window(ev));
    prev + Spaced(Window(ev))
  }

  // ---------------------------------------------------------------------
  // The live handler's loop.
  // ---------------------------------------------------------------------

  /**
   * The `for` loop of the live `onresult` handler: walks positions
   * `resultIndex .. |results| - 1` and sorts each segment's text into the
   * final or the interim accumulator.
   */
  method CollectSegments(ev: ResultEvent) returns (finalText: string, interimText: string)
    ensures finalText == Concat(FinalTexts(Window(ev)))
    ensures interimText == Interims(Window(ev))
  {
    finalText, interimText := "", "";
    var i := ev.resultIndex;
    while i < |ev.results|
      invariant ev.resultIndex <= |ev.results| ==> ev.resultIndex <= i <= |ev.results|
      invariant ev.resultIndex > |ev.results| ==> i == ev.resultIndex && finalText == interimText == ""
      invariant ev.resultIndex <= |ev.results| ==> finalText == Finals(ev.results[ev.resultIndex..i])
      invariant ev.resultIndex <= |ev.results| ==> interimText == Interims(ev.results[ev.resultIndex..i])
    {
      assert ev.results[ev.resultIndex..i + 1][..i - ev.resultIndex] == ev.results[ev.resultIndex..i];
      var segment := ev.results[i];
      if segment.isFinal {
        finalText := finalText + segment.text;
      } else {
        interimText := interimText + segment.text;
      }
      i := i + 1;
    }
    if ev.resultIndex <= |ev.results| {
      assert ev.results[ev.resultIndex..i] == Window(ev);
    }
    FinalsInOrder(Window(ev));
  }

  // ---------------------------------------------------------------------
  // Lemmas.
  // ---------------------------------------------------------------------

  lemma {:induction false} FinalsAppend(a: seq<Segment>, b: seq<Segment>)
    ensures Finals(a + b) == Finals(a) + Finals(b)
    decreases |b|
  {
    if b == [] {
      assert a + b == a;
    } else {
      var b' := b[..|b| - 1];
      assert (a + b)[..|a + b| - 1] == a + b';
      FinalsAppend(a, b');
    }
  }

  lemma {:induction false} SpacedAppend(a: seq<Segment>, b: seq<Segment>)
    ensures Spaced(a + b) == Spaced(a) + Spaced(b)
    decreases |b|
  {
    if b == [] {
      assert a + b == a;
    } else {
      var b' := b[..|b| - 1];
      assert (a + b)[..|a + b| - 1] == a + b';
      SpacedAppend(a, b');
    }
  }

  /** The live accumulator holds exactly the final texts, in index order. */
  lemma {:induction false} FinalsInOrder(s: seq<Segment>)
    ensures Finals(s) == Concat(FinalTexts(s))
  {
    if s != [] {
      var head := if s[0].isFinal then [s[0].text] else [];
      FinalsInOrder(s[1..]);
      FinalsAppend([s[0]], s[1..]);
      assert [s[0]] + s[1..] == s;
      assert [s[0]][..0] == [];
      assert Finals([s[0]]) == Concat(head);
      ConcatAppend(head, FinalTexts(s[1..]));
    }
  }

  /** The file path appends `" " + text` for each final text, in index order. */
  lemma {:induction false} SpacedInOrder(s: seq<Segment>)
    ensures Spaced(s) == ConcatSpaced(FinalTexts(s))
  {
    if s != [] {
      var head := if s[0].isFinal then [s[0].text] else [];
      SpacedInOrder(s[1..]);
      SpacedAppend([s[0]], s[1..]);
      assert [s[0]] + s[1..] == s;
      assert [s[0]][..0] == [];
      assert Spaced([s[0]]) == ConcatSpaced(head);
      ConcatSpacedAppend(head, FinalTexts(s[1..]));
    }
  }

  lemma ConcatAppend(head: seq<string>, rest: seq<string>)
    requires |head| <= 1
    ensures Concat(head + rest) == Concat(head) + Concat(rest)
  {
    if head == [] {
      assert head + rest == rest;
    } else {
      assert (head + rest)[1..] == rest;
      assert head[1..] == [];
    }
  }

  lemma ConcatSpacedAppend(head: seq<string>, rest: seq<string>)
    requires |head| <= 1
    ensures ConcatSpaced(head + rest) == ConcatSpaced(head) + ConcatSpaced(rest)
  {
    if head == [] {
      assert head + rest == rest;
    } else {
      assert (head + rest)[1..] == rest;
      assert head[1..] == [];
    }
  }

  /** The file path adds one space per final segment on top of the final texts. */
  lemma {:induction false} SpacedLength(s: seq<Segment>)
    ensures |Spaced(s)| == FinalCount(s) + |Finals(s)|
  {
    if s != [] {
      SpacedLength(s[..|s| - 1]);
    }
  }

  /** With exactly one final segment, the file path's text is that segment after one space. */
  lemma {:induction false} SpacedSingle(s: seq<Segment>)
    requires FinalCount(s) == 1
    ensures Spaced(s) == " " + Finals(s)
  {
    var init, last := s[..|s| - 1], s[|s| - 1];
    if last.isFinal {
      NoFinalsEmpty(init);
      assert Spaced(s) == " " + last.text;
      assert Finals(s) == last.text;
    } else {
      SpacedSingle(init);
      assert Spaced(s) == Spaced(init);
      assert Finals(s) == Finals(init);
    }
  }

  /** A list with no final segment contributes nothing on either path. */
  lemma {:induction false} NoFinalsEmpty(s: seq<Segment>)
    requires FinalCount(s) == 0
    ensures Finals(s) == "" && Spaced(s) == ""
  {
    if s != [] {
      NoFinalsEmpty(s[..|s| - 1]);
    }
  }

  /** `FinalCount` is zero exactly when no segment is final. */
  lemma {:induction false} FinalCountZero(s: seq<Segment>)
    ensures FinalCount(s) == 0 <==> forall k :: 0 <= k < |s| ==> !s[k].isFinal
  {
    if s != [] {
      var init := s[..|s| - 1];
      FinalCountZero(init);
      assert forall k :: 0 <= k < |init| ==> init[k] == s[k];
    }
  }

  /**
   * Interim text never reaches the transcript: two lists with the same flags
   * and the same final texts produce the same final text and the same
   * file-path text, whatever their interim texts.
   */
  lemma {:induction false} InterimTextIgnored(s: seq<Segment>, t: seq<Segment>)
    requires |s| == |t|
    requires forall k :: 0 <= k < |s| ==> s[k].isFinal == t[k].isFinal
    requires forall k :: 0 <= k < |s| && s[k].isFinal ==> s[k].text == t[k].text
    ensures Finals(s) == Finals(t) && Spaced(s) == Spaced(t)
  {
    if s != [] {
      InterimTextIgnored(s[..|s| - 1], t[..|t| - 1]);
    }
  }

  /** An event without a final segment in its window leaves the transcript unchanged on both paths. */
  lemma NoFinalNoChange(prev: string, ev: ResultEvent)
    requires forall k :: ev.resultIndex <= k < |ev.results| ==> !ev.results[k].isFinal
    ensures LiveUpdate(prev, ev) == prev
    ensures FileUpdate(prev, ev) == prev
  {
    var w := Window(ev);
    FinalCountZero(w);
    NoFinalsEmpty(w);
  }

  /** Only positions from `resultIndex` on matter: results before it are ignored on both paths. */
  lemma EarlierResultsIgnored(prev: string, ev: ResultEvent, ev': ResultEvent)
    requires ev.resultIndex == ev'.resultIndex && |ev.results| == |ev'.results|
    requires forall k :: ev.resultIndex <= k < |ev.results| ==> ev.results[k] == ev'.results[k]
    ensures LiveUpdate(prev, ev) == LiveUpdate(prev, ev')
    ensures FileUpdate(prev, ev) == FileUpdate(prev, ev')
  {
    assert Window(ev) == Window(ev');
  }

  /**
   * With one non-empty final segment the two paths agree; with `k` final
   * segments the file path adds `k` separating spaces where the live path
   * adds one. When the final text is empty the live path leaves the
   * transcript as it was, while the file path still adds one space per
   * final segment.
   */
  lemma PathsCompared(prev: string, ev: ResultEvent)
    ensures Finals(Window(ev)) != "" && FinalCount(Window(ev)) == 1 ==> FileUpdate(prev, ev) == LiveUpdate(prev, ev)
    ensures Finals(Window(ev)) != "" ==>
      |FileUpdate(prev, ev)| == |LiveUpdate(prev, ev)| + FinalCount(Window(ev)) - 1
    ensures Finals(Window(ev)) == "" ==>
      LiveUpdate(prev, ev) == prev && |FileUpdate(prev, ev)| == |prev| + FinalCount(Window(ev))
  {
    var w := Window(ev);
    if FinalCount(w) == 1 {
      SpacedSingle(w);
    }
    if FinalCount(w) == 0 {
      NoFinalsEmpty(w);
    }
  }

  /**
   * The two paths differ on a final segment with empty text: the live path
   * skips it, the file path still adds its space.
   */
  lemma EmptyFinalDiverges()
    ensures var ev := ResultEvent(0, [Segment("", true)]);
      LiveUpdate("a", ev) == "a" && FileUpdate("a", ev) == "a "
  {
    var ev := ResultEvent(0, [Segment("", true)]);
    assert Window(ev) == [Segment("", true)];
    assert Spaced([Segment("", true)]) == " ";
  }
}
