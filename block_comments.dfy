/** The block-comment pre-scan of JavaLineStyler (parseBlockComments) and the overlap
    test a line is put through (inBlockComment), as specifications on values. */
module BlockComments {

  // One recorded `/* ... */` region: the offset of its opening `/` and its end offset
  // (the offset of the closing `/`, or the counter value at end of input).
  datatype Span = Span(start: int, end: int)

  /** Whether the pre-scan is inside a block comment, and where that comment opened. */
  datatype Mode = Outside | Inside(start: int)

  /** The spans the pre-scan records from reader position `p`, with the character counter at
      `cnt`, in `mode`. The character after a `/`, and after a `*` inside a comment, is
      consumed without being examined; once the reader is exhausted it yields EOF. */
  function PreScan(text: string, p: nat, cnt: int, mode: Mode): seq<Span>
    requires p <= |text|
    decreases |text| - p
  {
    if p == |text| then
      if mode.Inside? then [Span(mode.start, cnt)] else []
    else
      var next := if p + 1 < |text| then p + 2 else p + 1;
      if text[p] == '/' then
        if p + 1 < |text| && text[p + 1] == '*' && mode.Outside? then
          PreScan(text, p + 2, cnt + 2, Inside(cnt))
        else
          PreScan(text, next, cnt + 2, mode)
      else if text[p] == '*' && mode.Inside? then
        if p + 1 < |text| && text[p + 1] == '/' then
          [Span(mode.start, cnt + 1)] + PreScan(text, p + 2, cnt + 2, Outside)
        else
          PreScan(text, next, cnt + 2, mode)
      else
        PreScan(text, p + 1, cnt + 1, mode)
  }

  /** The spans parseBlockComments records for a whole document. */
  function BlockSpans(text: string): seq<Span> {
    PreScan(text, 0, 0, Outside)
  }

  // `/*` starts at offset `s`.
  predicate Opener(text: string, s: int) {
    0 <= s && s + 1 < |text| && text[s] == '/' && text[s + 1] == '*'
  }

  // `*/` ends at offset `e` (the offset of its `/`).
  predicate Closer(text: string, e: int) {
    1 <= e < |text| && text[e - 1] == '*' && text[e] == '/'
  }

  // The shape of what the pre-scan records: spans in document order, none starting before
  // `lo`, each opened by a `/*` and ending after it starts; all but the last closed by a
  // `*/` before the next one opens; the last closed, or ending at the end of input (the
  // counter there is |text|, or one more when the scan reads the final character as a `/`,
  // or as a `*` inside the comment).
  predicate SpansFrom(text: string, spans: seq<Span>, lo: int) {
    && (forall i :: 0 <= i < |spans| ==>
          lo <= spans[i].start < spans[i].end && Opener(text, spans[i].start))
    && (forall i :: 0 <= i < |spans| - 1 ==> Closer(text, spans[i].end))
    && (forall i, j :: 0 <= i < j < |spans| ==> spans[i].end < spans[j].start)
    && (|spans| > 0 ==>
          var last := spans[|spans| - 1].end;
          Closer(text, last) || |text| <= last <= |text| + 1)
  }

  /** Every state the pre-scan passes through yields spans of that shape. */
  lemma {:induction false} PreScanShape(text: string, p: nat, cnt: int, mode: Mode)
    requires p <= |text|
    requires cnt == p || (p == |text| && cnt == p + 1)
    requires mode.Inside? ==> Opener(text, mode.start) && mode.start + 2 <= p
    ensures SpansFrom(text, PreScan(text, p, cnt, mode), if mode.Inside? then mode.start else p)
    ensures mode.Inside? ==> |PreScan(text, p, cnt, mode)| > 0 && PreScan(text, p, cnt, mode)[0].start == mode.start
    decreases |text| - p
  {
    var r := PreScan(text, p, cnt, mode);
    if p < |text| {
      var next := if p + 1 < |text| then p + 2 else p + 1;
      if text[p] == '/' && p + 1 < |text| && text[p + 1] == '*' && mode.Outside? {
        assert r == PreScan(text, p + 2, cnt + 2, Inside(cnt));
        PreScanShape(text, p + 2, cnt + 2, Inside(cnt));
      } else if text[p] == '*' && mode.Inside? && p + 1 < |text| && text[p + 1] == '/' {
        var rest := PreScan(text, p + 2, cnt + 2, Outside);
        assert r == [Span(mode.start, cnt + 1)] + rest;
        PreScanShape(text, p + 2, cnt + 2, Outside);
        ConsClosedSpan(text, Span(mode.start, cnt + 1), rest, p + 2);
      } else {
        // The scan moves on without opening or closing a comment.
        var skip := text[p] == '/' || (text[p] == '*' && mode.Inside?);
        var p', cnt' := if skip then next else p + 1, if skip then cnt + 2 else cnt + 1;
        assert r == PreScan(text, p', cnt', mode);
        PreScanShape(text, p', cnt', mode);
        if mode.Outside? {
          SpansFromLower(text, r, p', p);
        }
      }
    }
  }

  // Lowering the bound keeps the shape.
  lemma SpansFromLower(text: string, spans: seq<Span>, lo: int, lo': int)
    requires SpansFrom(text, spans, lo) && lo' <= lo
    ensures SpansFrom(text, spans, lo')
  {
  }

  // A span closed by a `*/` before `lo`, put in front of spans starting at `lo` or later.
  lemma ConsClosedSpan(text: string, s: Span, rest: seq<Span>, lo: int)
    requires SpansFrom(text, rest, lo)
    requires s.start < s.end < lo && Opener(text, s.start) && Closer(text, s.end)
    ensures SpansFrom(text, [s] + rest, s.start)
  {
    var r := [s] + rest;
    forall i, j | 0 <= i < j < |r| ensures r[i].end < r[j].start {
      if i > 0 {
        assert r[i] == rest[i - 1] && r[j] == rest[j - 1];
      } else {
        assert r[j] == rest[j - 1];
      }
    }
  }

  // The pre-scan of a whole document yields spans in document order, each starting at
  // a `/*`, each closed by the `*/` whose `/` is its end, except that the last may run to
  // the end of input.
  lemma BlockSpansShape(text: string)
    ensures SpansFrom(text, BlockSpans(text), 0)
  {
    PreScanShape(text, 0, 0, Outside);
  }

  // No `/` or `*` in text[p..q).
  predicate Plain(text: string, p: int, q: int)
    requires 0 <= p <= q <= |text|
  {
    forall k :: p <= k < q ==> text[k] != '/' && text[k] != '*'
  }

  // Over a stretch with no `/` or `*` the pre-scan only counts characters.
  lemma {:induction false} PreScanPlain(text: string, p: nat, q: nat, cnt: int, mode: Mode)
    requires p <= q <= |text| && Plain(text, p, q)
    ensures PreScan(text, p, cnt, mode) == PreScan(text, q, cnt + (q - p), mode)
    decreases q - p
  {
    if p < q {
      PreScanPlain(text, p + 1, q, cnt + 1, mode);
    }
  }

  // Where the quirks cannot fire, the pre-scan records every comment it reaches, closed by
  // the first `*/`: a `/*` reached outside a comment at `s`, with no `/` or `*` before it
  // and none inside the comment before the `*/` ending at `j`, is recorded as Span(s, j),
  // and the scan goes on outside a comment just past that `/`.
  lemma PreScanRecordsComment(text: string, p: nat, s: nat, j: nat)
    requires p <= s && Opener(text, s) && Plain(text, p, s)
    requires Closer(text, j) && s + 3 <= j && Plain(text, s + 2, j - 1)
    ensures PreScan(text, p, p, Outside) == [Span(s, j)] + PreScan(text, j + 1, j + 1, Outside)
  {
    PreScanPlain(text, p, s, p, Outside);
    PreScanPlain(text, s + 2, j - 1, s + 2, Inside(s));
  }

  // A `/*` reached outside a comment whose body holds no `/` or `*` up to the end of input
  // is recorded as a span running to the end of input.
  lemma PreScanRecordsUnclosed(text: string, p: nat, s: nat)
    requires p <= s && Opener(text, s) && Plain(text, p, s) && Plain(text, s + 2, |text|)
    ensures PreScan(text, p, p, Outside) == [Span(s, |text|)]
  {
    PreScanPlain(text, p, s, p, Outside);
    PreScanPlain(text, s + 2, |text|, s + 2, Inside(s));
  }

  // A stretch with no `/` or `*` up to the end of input records nothing.
  lemma PreScanRecordsNothing(text: string, p: nat)
    requires p <= |text| && Plain(text, p, |text|)
    ensures PreScan(text, p, p, Outside) == []
  {
    PreScanPlain(text, p, |text|, p, Outside);
  }

  /** The three tests inBlockComment makes of one span against the line's closed range
      [start, end]: the span starts in it, ends in it, or contains it. */
  predicate Touches(o: Span, start: int, end: int) {
    (o.start >= start && o.start <= end) || (o.end >= start && o.end <= end) || (o.start <= start && o.end >= end)
  }

  /** Some recorded span touches [start, end]. */
  predicate Overlaps(spans: seq<Span>, start: int, end: int) {
    exists i :: 0 <= i < |spans| && Touches(spans[i], start, end)
  }

  /** For well-formed spans and ranges, the three tests amount to the two closed intervals
      intersecting. */
  lemma TouchesIsIntersection(o: Span, start: int, end: int)
    requires o.start <= o.end && start <= end
    ensures Touches(o, start, end) <==> o.start <= end && o.end >= start
  {
  }

  /** A line overlaps the recorded comments exactly when its closed range intersects one of
      them. */
  lemma OverlapsIsIntersection(text: string, spans: seq<Span>, start: int, end: int)
    requires SpansFrom(text, spans, 0) && start <= end
    ensures Overlaps(spans, start, end) <==>
      exists i :: 0 <= i < |spans| && spans[i].start <= end && spans[i].end >= start
  {
    if Overlaps(spans, start, end) {
      var i :| 0 <= i < |spans| && Touches(spans[i], start, end);
      TouchesIsIntersection(spans[i], start, end);
    }
    if exists i :: 0 <= i < |spans| && spans[i].start <= end && spans[i].end >= start {
      var i :| 0 <= i < |spans| && spans[i].start <= end && spans[i].end >= start;
      TouchesIsIntersection(spans[i], start, end);
    }
  }

  /** A comment spread over lines: the pre-scan records one span from the opening `/` to
      the closing `/`; the first two lines touch it, the third does not. */
  lemma ExampleTwoLineComment()
    ensures BlockSpans("/* a\n b */\nint x;") == [Span(0, 9)]
    ensures Overlaps([Span(0, 9)], 0, 4) && Overlaps([Span(0, 9)], 5, 10)
    ensures !Overlaps([Span(0, 9)], 11, 17)
  {
    var s := [Span(0, 9)];
    assert Touches(s[0], 0, 4);
    assert Touches(s[0], 5, 10);
  }

  /** The end of a span is the offset of the closing `/`, not one past it. */
  lemma ExampleSpanEnd()
    ensures BlockSpans("/* a */ int x;") == [Span(0, 6)]
  {
  }

  // `//*` opens no comment: the `*` right after a `/` is never examined.
  lemma ExampleSlashSlashStar()
    ensures BlockSpans("//* x */") == []
  {
  }

  // `/***/` does not close: the `*` after a `*` is consumed unexamined, so the comment runs
  // to the end, and the `/` that ends the text pushes the counter one past its length.
  lemma ExampleUnclosed()
    ensures BlockSpans("/***/") == [Span(0, 6)]
  {
  }

  // The counter overshoots only when the scan reads the final character itself: a final
  // `/` swallowed after a `/`, or a final `*` swallowed after an in-comment `*`, does not.
  lemma ExampleFinalCharacter()
    ensures BlockSpans("/* a /") == [Span(0, 7)]
    ensures BlockSpans("/* a//") == [Span(0, 6)]
    ensures BlockSpans("/* a**") == [Span(0, 6)]
  {
  }
}
