/** The line-style listener of the Java viewer example (JavaLineStyler): the colour table,
    the style ranges it hands the text widget for one line, and the block-comment table it
    keeps for the whole document. */
module LineStyler {
  import opened Scanner
  import opened BlockComments

  // The four colours the styler allocates, as indices into its palette.
  const BLACK := 0
  const RED := 1
  const GREEN := 2
  const BLUE := 3

  // Font styles: SWT.NORMAL and SWT.BOLD.
  const NORMAL := 0
  const BOLD := 1

  /** Palette index of each token code (code 4 is unused and left at 0). */
  const TOKEN_COLORS: seq<int> := [BLACK, BLACK, BLUE, RED, BLACK, GREEN, BLACK, BLACK]

  datatype Option<T> = None | Some(value: T)

  /** Colour of a token code: none for a code outside the table; keywords blue, comments
      red, strings green, everything else black. */
  function GetColor(kind: int): (r: Option<int>)
    ensures r.None? <==> kind < 0 || kind >= MAXIMUM_TOKEN
    ensures r.Some? ==> BLACK <= r.value <= BLUE
    ensures r == Some(BLUE) <==> kind == KEY
    ensures r == Some(RED) <==> kind == COMMENT
    ensures r == Some(GREEN) <==> kind == STRING
  {
    if kind < 0 || kind >= |TOKEN_COLORS| then None else Some(TOKEN_COLORS[kind])
  }

  /** A style range: start offset in the document, length, foreground colour, font style. */
  datatype StyleRange = StyleRange(start: int, length: int, foreground: int, fontStyle: int)

  /** What a style range does to the characters it covers. */
  datatype Attr = Attr(foreground: int, fontStyle: int)

  function End(s: StyleRange): int {
    s.start + s.length
  }

  function Attrs(s: StyleRange): Attr {
    Attr(s.foreground, s.fontStyle)
  }

  /** StyleRange.similarTo for the ranges the styler builds (no background, no other
      attributes): same foreground and same font style. */
  predicate SimilarTo(a: StyleRange, b: StyleRange) {
    a.foreground == b.foreground && a.fontStyle == b.fontStyle
  }

  function Last(styles: seq<StyleRange>): StyleRange
    requires styles != []
  {
    styles[|styles| - 1]
  }

  /** The last range lengthened by `d`: `lastStyle.length += d`. */
  function Extend(styles: seq<StyleRange>, d: int): seq<StyleRange>
    requires styles != []
  {
    styles[..|styles| - 1] + [Last(styles).(length := Last(styles).length + d)]
  }

  /** One pass of lineGetStyle's loop: the ranges after the token `kind` at document offset
      `start`, of length `length`, on a widget whose foreground is `fg`. */
  function Step(styles: seq<StyleRange>, kind: int, start: int, length: int, fg: int): seq<StyleRange>
    requires IsTokenKind(kind)
  {
    if kind == OTHER then styles
    else if kind != WHITE then
      var color := GetColor(kind).value;
      if color != fg || kind == KEY then
        var style := StyleRange(start, length, color, if kind == KEY then BOLD else NORMAL);
        if styles == [] then [style]
        else if SimilarTo(Last(styles), style) && End(Last(styles)) == start then Extend(styles, length)
        else styles + [style]
      else styles
    else if styles != [] && Last(styles).fontStyle == BOLD && End(Last(styles)) == start then
      Extend(styles, length)
    else styles
  }

  predicate KindsValid(toks: seq<Token>) {
    forall k :: 0 <= k < |toks| ==> IsTokenKind(toks[k].kind)
  }

  /** The ranges after the first `n` tokens of the line at document offset `lo`. */
  function Styled(toks: seq<Token>, n: nat, lo: int, fg: int): seq<StyleRange>
    requires n <= |toks| && KindsValid(toks)
  {
    if n == 0 then []
    else Step(Styled(toks, n - 1, lo, fg), toks[n - 1].kind, lo + toks[n - 1].start, toks[n - 1].length, fg)
  }

  /** The ranges lineGetStyle reports for the line `text` at document offset `lo`, given the
      recorded block comments: one comment-coloured range over the whole line if the line
      touches a block comment, otherwise the ranges built from its tokens. */
  function LineStyles(spans: seq<Span>, lo: int, text: string, fg: int, cc: CharClasses, keywords: seq<string>): seq<StyleRange>
  {
    if Overlaps(spans, lo, lo + |text|) then [StyleRange(lo, |text|, GetColor(COMMENT).value, NORMAL)]
    else TokenStyles(cc, keywords, text, lo, fg)
  }

  /** The ranges built from all the tokens of the line `text` at document offset `lo`. */
  function TokenStyles(cc: CharClasses, keywords: seq<string>, text: string, lo: int, fg: int): seq<StyleRange>
  {
    var toks := Tokens(cc, keywords, text, 0);
    TokensShape(cc, keywords, text, 0);
    Styled(toks, |toks|, lo, fg)
  }

  // ---------------------------------------------------------------------------------------
  // Reference semantics: the attributes each character of the line ends up with.

  /** The attributes the characters of a token of code `kind` get, when the token before it
      left `prev`: keywords blue and bold; comments, strings, words and numbers their colour
      unless it is the widget's foreground; OTHER tokens nothing; whitespace carries on a
      bold style that runs up to it. */
  function Shade(kind: int, fg: int, prev: Option<Attr>): Option<Attr>
    requires IsTokenKind(kind)
  {
    if kind == OTHER then None
    else if kind == WHITE then
      if prev.Some? && prev.value.fontStyle == BOLD then prev else None
    else
      var color := GetColor(kind).value;
      if color != fg || kind == KEY then Some(Attr(color, if kind == KEY then BOLD else NORMAL))
      else None
  }

  /** The attributes of the characters of token `k`. */
  function Paint(toks: seq<Token>, k: nat, fg: int): Option<Attr>
    requires k < |toks| && KindsValid(toks)
  {
    Shade(toks[k].kind, fg, if k == 0 then None else Paint(toks, k - 1, fg))
  }

  /** The attributes at document offset `x`: those of a range covering it (the last one). */
  function AttrAt(styles: seq<StyleRange>, x: int): Option<Attr> {
    if styles == [] then None
    else if Last(styles).start <= x < End(Last(styles)) then Some(Attrs(Last(styles)))
    else AttrAt(styles[..|styles| - 1], x)
  }

  /** The attributes of a last range ending exactly at `x`, which a following token may join. */
  function Joined(styles: seq<StyleRange>, x: int): Option<Attr> {
    if styles != [] && End(Last(styles)) == x then Some(Attrs(Last(styles))) else None
  }

  /** The ranges are non-empty, lie within [lo, hi), and are in order without overlap. */
  predicate Ordered(styles: seq<StyleRange>, lo: int, hi: int) {
    && (forall i :: 0 <= i < |styles| ==> lo <= styles[i].start < End(styles[i]) <= hi)
    && (forall i, j :: 0 <= i < j < |styles| ==> End(styles[i]) <= styles[j].start)
  }

  /** No range could have been merged into the one before it. */
  ghost predicate Merged(styles: seq<StyleRange>) {
    forall i, j :: 0 <= i < j < |styles| && j == i + 1 ==>
      !(SimilarTo(styles[i], styles[j]) && End(styles[i]) == styles[j].start)
  }

  /** Every range is a bold blue keyword range, or a normal one in a colour other than the
      widget's foreground and other than the keyword colour. */
  predicate Consistent(styles: seq<StyleRange>, fg: int) {
    forall i :: 0 <= i < |styles| ==>
      (styles[i].fontStyle == BOLD && styles[i].foreground == BLUE) ||
      (styles[i].fontStyle == NORMAL && styles[i].foreground != fg && BLACK <= styles[i].foreground < BLUE)
  }

  /** The tokens cover [0, their end) one after another, each non-empty and of a valid code. */
  ghost predicate Tiling(toks: seq<Token>) {
    && KindsValid(toks)
    && (|toks| > 0 ==> toks[0].start == 0)
    && (forall k :: 0 <= k < |toks| ==> 0 <= toks[k].start && toks[k].length >= 1)
    && (forall j, k :: 0 <= j < k < |toks| && k == j + 1 ==> toks[j].start + toks[j].length == toks[k].start)
  }

  /** Offset just past the first `n` tokens. */
  function Pos(toks: seq<Token>, n: nat): int
    requires n <= |toks|
  {
    if n == 0 then 0 else toks[n - 1].start + toks[n - 1].length
  }

  // ---------------------------------------------------------------------------------------
  // Lemmas about one range list edit.

  lemma AttrAtAppend(styles: seq<StyleRange>, s: StyleRange, x: int)
    ensures AttrAt(styles + [s], x) == if s.start <= x < End(s) then Some(Attrs(s)) else AttrAt(styles, x)
  {
    assert (styles + [s])[..|styles|] == styles;
  }

  lemma AttrAtExtend(styles: seq<StyleRange>, d: int, x: int)
    requires styles != [] && d >= 0
    ensures x < End(Last(styles)) ==> AttrAt(Extend(styles, d), x) == AttrAt(styles, x)
    ensures Last(styles).start <= x < End(Last(styles)) + d ==> AttrAt(Extend(styles, d), x) == Some(Attrs(Last(styles)))
  {
    var e := Extend(styles, d);
    assert e[..|e| - 1] == styles[..|styles| - 1];
  }

  /** Nothing is covered at or past the end of every range. */
  lemma {:induction false} AttrAtBeyond(styles: seq<StyleRange>, x: int)
    requires forall i :: 0 <= i < |styles| ==> End(styles[i]) <= x
    ensures AttrAt(styles, x) == None
    decreases |styles|
  {
    if styles != [] {
      var init := styles[..|styles| - 1];
      forall i | 0 <= i < |init| ensures End(init[i]) <= x {
        assert init[i] == styles[i];
      }
      AttrAtBeyond(init, x);
    }
  }

  /** Nothing is covered before the start of every range. */
  lemma {:induction false} AttrAtBefore(styles: seq<StyleRange>, x: int)
    requires forall i :: 0 <= i < |styles| ==> x < styles[i].start
    ensures AttrAt(styles, x) == None
    decreases |styles|
  {
    if styles != [] {
      var init := styles[..|styles| - 1];
      forall i | 0 <= i < |init| ensures x < init[i].start {
        assert init[i] == styles[i];
      }
      AttrAtBefore(init, x);
    }
  }

  /** A step leaves the ranges alone when Shade gives the token nothing, lengthens the last
      range when the token joins it with the same attributes, and otherwise appends a range
      for the token alone, which could not have been merged into the last one. */
  lemma StepCases(styles: seq<StyleRange>, kind: int, start: int, length: int, fg: int)
    requires IsTokenKind(kind)
    ensures var r := Step(styles, kind, start, length, fg);
            var sh := Shade(kind, fg, Joined(styles, start));
      || (sh.None? && r == styles)
      || (sh.Some? && Joined(styles, start) == sh && r == Extend(styles, length))
      || (sh.Some? && Joined(styles, start) != sh &&
          r == styles + [StyleRange(start, length, sh.value.foreground, sh.value.fontStyle)] &&
          Consistent([StyleRange(start, length, sh.value.foreground, sh.value.fontStyle)], fg))
  {
    if kind != OTHER && kind != WHITE {
      var color := GetColor(kind).value;
      if color != fg || kind == KEY {
        var style := StyleRange(start, length, color, if kind == KEY then BOLD else NORMAL);
        assert Consistent([style], fg);
        if styles == [] {
          assert Step(styles, kind, start, length, fg) == styles + [style];
        }
      }
    }
  }

  /** A step changes nothing before the token and gives the token's characters the
      attributes Shade assigns them. */
  lemma StepAttrs(styles: seq<StyleRange>, kind: int, start: int, length: int, fg: int, x: int)
    requires IsTokenKind(kind) && length >= 1
    requires forall i :: 0 <= i < |styles| ==> styles[i].start < End(styles[i]) <= start
    ensures x < start ==> AttrAt(Step(styles, kind, start, length, fg), x) == AttrAt(styles, x)
    ensures start <= x < start + length ==>
      AttrAt(Step(styles, kind, start, length, fg), x) == Shade(kind, fg, Joined(styles, start))
    ensures Joined(Step(styles, kind, start, length, fg), start + length) == Shade(kind, fg, Joined(styles, start))
  {
    var r := Step(styles, kind, start, length, fg);
    var sh := Shade(kind, fg, Joined(styles, start));
    StepCases(styles, kind, start, length, fg);
    if start <= x < start + length {
      AttrAtBeyond(styles, x);
    }
    if sh.None? {
      assert r == styles;
    } else if Joined(styles, start) == sh && r == Extend(styles, length) {
      AttrAtExtend(styles, length, x);
      assert Last(r) == Last(styles).(length := Last(styles).length + length);
    } else {
      AttrAtAppend(styles, StyleRange(start, length, sh.value.foreground, sh.value.fontStyle), x);
    }
  }

  /** Appending a range past the others, not mergeable into the last one. */
  lemma AppendShape(styles: seq<StyleRange>, s: StyleRange, lo: int, hi: int, fg: int)
    requires Ordered(styles, lo, s.start) && Merged(styles) && Consistent(styles, fg)
    requires lo <= s.start < End(s) <= hi
    requires styles != [] ==> !(SimilarTo(Last(styles), s) && End(Last(styles)) == s.start)
    requires Consistent([s], fg)
    ensures Ordered(styles + [s], lo, hi) && Merged(styles + [s]) && Consistent(styles + [s], fg)
  {
    var r := styles + [s];
    assert forall i :: 0 <= i < |styles| ==> r[i] == styles[i];
    assert r[|styles|] == [s][0];
  }

  /** Lengthening the last range keeps the list ordered, merged and consistent. */
  lemma ExtendShape(styles: seq<StyleRange>, d: int, lo: int, hi: int, fg: int)
    requires styles != [] && d >= 0 && End(Last(styles)) + d <= hi
    requires Ordered(styles, lo, End(Last(styles))) && Merged(styles) && Consistent(styles, fg)
    ensures Ordered(Extend(styles, d), lo, hi) && Merged(Extend(styles, d)) && Consistent(Extend(styles, d), fg)
  {
    var r := Extend(styles, d);
    assert forall i :: 0 <= i < |styles| - 1 ==> r[i] == styles[i];
    assert SimilarTo(r[|r| - 1], Last(styles)) && r[|r| - 1].start == Last(styles).start;
  }

  /** Raising the upper bound keeps a list ordered. */
  lemma OrderedWiden(styles: seq<StyleRange>, lo: int, hi: int, hi': int)
    requires Ordered(styles, lo, hi) && hi <= hi'
    ensures Ordered(styles, lo, hi')
  {
  }

  /** A step keeps the ranges ordered within the line, merged and consistent. */
  lemma StepShape(styles: seq<StyleRange>, kind: int, start: int, length: int, fg: int, lo: int)
    requires IsTokenKind(kind) && length >= 1 && lo <= start
    requires Ordered(styles, lo, start) && Merged(styles) && Consistent(styles, fg)
    ensures Ordered(Step(styles, kind, start, length, fg), lo, start + length)
    ensures Merged(Step(styles, kind, start, length, fg))
    ensures Consistent(Step(styles, kind, start, length, fg), fg)
  {
    var r := Step(styles, kind, start, length, fg);
    var sh := Shade(kind, fg, Joined(styles, start));
    StepCases(styles, kind, start, length, fg);
    if sh.None? {
      OrderedWiden(styles, lo, start, start + length);
    } else if Joined(styles, start) == sh && r == Extend(styles, length) {
      ExtendShape(styles, length, lo, start + length, fg);
    } else {
      AppendShape(styles, StyleRange(start, length, sh.value.foreground, sh.value.fontStyle), lo, start + length, fg);
    }
  }

  // ---------------------------------------------------------------------------------------
  // The styled line agrees with the reference semantics.

  /** What holds of the ranges after the first `n` tokens. */
  ghost predicate StyledInv(styles: seq<StyleRange>, toks: seq<Token>, n: nat, lo: int, fg: int)
    requires n <= |toks| && KindsValid(toks)
  {
    RangesShape(styles, toks, n, lo, fg) && RangesPaint(styles, toks, n, lo, fg)
  }

  // The ranges lie in order within the first `n` tokens, merged and consistent, and the
  // last one reaching the end of those tokens carries the attributes of token `n - 1`.
  ghost predicate RangesShape(styles: seq<StyleRange>, toks: seq<Token>, n: nat, lo: int, fg: int)
    requires n <= |toks| && KindsValid(toks)
  {
    && Ordered(styles, lo, lo + Pos(toks, n))
    && Merged(styles)
    && Consistent(styles, fg)
    && Joined(styles, lo + Pos(toks, n)) == (if n == 0 then None else Paint(toks, n - 1, fg))
  }

  // The characters of each of the first `n` tokens carry the attributes Paint gives it.
  ghost predicate RangesPaint(styles: seq<StyleRange>, toks: seq<Token>, n: nat, lo: int, fg: int)
    requires n <= |toks| && KindsValid(toks)
  {
    forall k, x :: 0 <= k < n && lo + toks[k].start <= x < lo + toks[k].start + toks[k].length ==>
      AttrAt(styles, x) == Paint(toks, k, fg)
  }

  lemma {:induction false} StyledInvHolds(toks: seq<Token>, n: nat, lo: int, fg: int)
    requires Tiling(toks) && n <= |toks|
    ensures StyledInv(Styled(toks, n, lo, fg), toks, n, lo, fg)
    decreases n
  {
    if n > 0 {
      StyledInvHolds(toks, n - 1, lo, fg);
      StyledInvStep(toks, n, lo, fg);
    }
  }

  /** One more token keeps the invariant. */
  lemma StyledInvStep(toks: seq<Token>, n: nat, lo: int, fg: int)
    requires Tiling(toks) && 0 < n <= |toks|
    requires StyledInv(Styled(toks, n - 1, lo, fg), toks, n - 1, lo, fg)
    ensures StyledInv(Styled(toks, n, lo, fg), toks, n, lo, fg)
  {
    var s, r := Styled(toks, n - 1, lo, fg), Styled(toks, n, lo, fg);
    var t := toks[n - 1];
    var prev := if n == 1 then None else Paint(toks, n - 2, fg);
    StyledNext(toks, n, lo, fg);
    assert Ordered(s, lo, lo + t.start) && Joined(s, lo + t.start) == prev;
    ShapeStep(s, t.kind, lo + t.start, t.length, fg, lo, prev, r);
    StyledInvShape(toks, n, lo, fg, r);
    StyledInvPaint(toks, n, lo, fg, s, r);
  }

  /** The ranges after `n` tokens are those of one more step, which starts where the first
      `n - 1` tokens end. */
  lemma StyledNext(toks: seq<Token>, n: nat, lo: int, fg: int)
    requires Tiling(toks) && 0 < n <= |toks|
    ensures Styled(toks, n, lo, fg) ==
      Step(Styled(toks, n - 1, lo, fg), toks[n - 1].kind, lo + toks[n - 1].start, toks[n - 1].length, fg)
    ensures Pos(toks, n - 1) == toks[n - 1].start && Pos(toks, n) == toks[n - 1].start + toks[n - 1].length
  {
    if n > 1 {
      assert toks[n - 2].start + toks[n - 2].length == toks[n - 1].start;
    }
  }

  /** Ranges ordered up to the end of token `n - 1`, merged and consistent, whose last range
      reaching that end carries what Shade gives that token after Paint of the one before,
      have the shape the first `n` tokens leave. */
  lemma StyledInvShape(toks: seq<Token>, n: nat, lo: int, fg: int, r: seq<StyleRange>)
    requires Tiling(toks) && 0 < n <= |toks|
    requires Ordered(r, lo, lo + toks[n - 1].start + toks[n - 1].length) && Merged(r) && Consistent(r, fg)
    requires Joined(r, lo + toks[n - 1].start + toks[n - 1].length) ==
      Shade(toks[n - 1].kind, fg, if n == 1 then None else Paint(toks, n - 2, fg))
    ensures RangesShape(r, toks, n, lo, fg)
  {
    assert lo + Pos(toks, n) == lo + toks[n - 1].start + toks[n - 1].length;
  }

  /** A step from ranges ordered up to the token's start, merged and consistent, whose last
      range reaching the token carries `prev`, gives ranges ordered up to the token's end,
      merged and consistent, whose last range reaching that end carries what Shade gives
      the token after `prev`. */
  lemma ShapeStep(s: seq<StyleRange>, kind: int, start: int, length: int, fg: int, lo: int, prev: Option<Attr>, r: seq<StyleRange>)
    requires IsTokenKind(kind) && length >= 1 && lo <= start
    requires Ordered(s, lo, start) && Merged(s) && Consistent(s, fg) && Joined(s, start) == prev
    requires r == Step(s, kind, start, length, fg)
    ensures Ordered(r, lo, start + length) && Merged(r) && Consistent(r, fg)
    ensures Joined(r, start + length) == Shade(kind, fg, prev)
  {
    StepShape(s, kind, start, length, fg, lo);
    StepAttrs(s, kind, start, length, fg, start);
  }

  /** A step for token `n - 1` keeps the characters of every earlier token painted as Paint
      says, and paints those of token `n - 1` so. */
  lemma StyledInvPaint(toks: seq<Token>, n: nat, lo: int, fg: int, s: seq<StyleRange>, r: seq<StyleRange>)
    requires Tiling(toks) && 0 < n <= |toks|
    requires Pos(toks, n - 1) == toks[n - 1].start
    requires StyledInv(s, toks, n - 1, lo, fg)
    requires r == Step(s, toks[n - 1].kind, lo + toks[n - 1].start, toks[n - 1].length, fg)
    ensures RangesPaint(r, toks, n, lo, fg)
  {
    var t := toks[n - 1];
    var start := lo + t.start;
    forall k, x | 0 <= k < n && lo + toks[k].start <= x < lo + toks[k].start + toks[k].length
      ensures AttrAt(r, x) == Paint(toks, k, fg)
    {
      StepAttrs(s, t.kind, start, t.length, fg, x);
      if k < n - 1 {
        TilingBefore(toks, k, n - 1);
      }
    }
  }

  /** A step keeps the start of every range, and any range it adds starts at the token. */
  lemma StepStarts(styles: seq<StyleRange>, kind: int, start: int, length: int, fg: int)
    requires IsTokenKind(kind)
    ensures forall i :: 0 <= i < |Step(styles, kind, start, length, fg)| ==>
      (i < |styles| && Step(styles, kind, start, length, fg)[i].start == styles[i].start) ||
      Step(styles, kind, start, length, fg)[i].start == start
  {
  }

  /** Every range starts where one of the first `n` tokens starts. */
  lemma {:induction false} StyledStarts(toks: seq<Token>, n: nat, lo: int, fg: int)
    requires KindsValid(toks) && n <= |toks|
    ensures forall i :: 0 <= i < |Styled(toks, n, lo, fg)| ==> AtTokenStart(toks, n, lo, Styled(toks, n, lo, fg)[i].start)
    decreases n
  {
    if n > 0 {
      StyledStarts(toks, n - 1, lo, fg);
      var s := Styled(toks, n - 1, lo, fg);
      var t := toks[n - 1];
      var r := Styled(toks, n, lo, fg);
      assert r == Step(s, t.kind, lo + t.start, t.length, fg);
      StepStarts(s, t.kind, lo + t.start, t.length, fg);
      StartsCarry(toks, n, lo, s, r);
    } else {
      assert Styled(toks, n, lo, fg) == [];
    }
  }

  // `x` is the document offset where one of the first `n` tokens starts.
  predicate AtTokenStart(toks: seq<Token>, n: nat, lo: int, x: int)
    requires n <= |toks|
  {
    exists k :: 0 <= k < n && x == lo + toks[k].start
  }

  // Ranges that keep their start or start at token `n - 1` start at one of the first `n`
  // tokens, when the earlier ranges did so at one of the first `n - 1`.
  lemma StartsCarry(toks: seq<Token>, n: nat, lo: int, s: seq<StyleRange>, r: seq<StyleRange>)
    requires 0 < n <= |toks|
    requires forall i :: 0 <= i < |s| ==> AtTokenStart(toks, n - 1, lo, s[i].start)
    requires forall i :: 0 <= i < |r| ==> (i < |s| && r[i].start == s[i].start) || r[i].start == lo + toks[n - 1].start
    ensures forall i :: 0 <= i < |r| ==> AtTokenStart(toks, n, lo, r[i].start)
  {
    forall i | 0 <= i < |r| ensures AtTokenStart(toks, n, lo, r[i].start) {
      var k := n - 1;
      if i < |s| && r[i].start == s[i].start {
        assert AtTokenStart(toks, n - 1, lo, s[i].start);
        k :| 0 <= k < n - 1 && s[i].start == lo + toks[k].start;
      }
      assert 0 <= k < n && r[i].start == lo + toks[k].start;
    }
  }

  /** Earlier tokens end no later than later ones start. */
  lemma {:induction false} TilingBefore(toks: seq<Token>, k: nat, m: nat)
    requires Tiling(toks) && k < m < |toks|
    ensures toks[k].start + toks[k].length <= toks[m].start
    decreases m - k
  {
    if k + 1 < m {
      TilingBefore(toks, k + 1, m);
    }
  }

  /** The tokens of a line tile it. */
  lemma TokensTile(cc: CharClasses, keywords: seq<string>, text: string)
    ensures Tiling(Tokens(cc, keywords, text, 0))
    ensures Pos(Tokens(cc, keywords, text, 0), |Tokens(cc, keywords, text, 0)|) == |text|
  {
    TokensShape(cc, keywords, text, 0);
  }

  /** The tokens from a position short of the end: the token Lex finds there, then the rest. */
  lemma TokensUnfold(cc: CharClasses, keywords: seq<string>, text: string, pos: nat)
    requires pos < |text|
    ensures IsTokenKind(Lex(cc, keywords, text, pos).kind)
    ensures Tokens(cc, keywords, text, pos) ==
      [Token(Lex(cc, keywords, text, pos).kind, pos, Lex(cc, keywords, text, pos).end - pos)] +
      Tokens(cc, keywords, text, Lex(cc, keywords, text, pos).end)
  {
  }

  lemma SuffixUnfold(toks: seq<Token>, n: nat, t: Token, rest: seq<Token>)
    requires n <= |toks| && toks[n..] == [t] + rest
    ensures n < |toks| && toks[n] == t && toks[n + 1..] == rest
  {
    assert toks[n..][0] == t;
    assert toks[n + 1..] == toks[n..][1..];
  }

  /** Where lineGetStyle's loop stands: the first `n` tokens of the line, which end at
      `pos`, have been styled into `styles`. */
  ghost predicate ScanState(cc: CharClasses, keywords: seq<string>, text: string, toks: seq<Token>, n: nat,
                            pos: nat, styles: seq<StyleRange>, lo: int, fg: int)
  {
    && toks == Tokens(cc, keywords, text, 0)
    && pos <= |text| && n <= |toks|
    && toks[n..] == Tokens(cc, keywords, text, pos)
    && KindsValid(toks)
    && styles == Styled(toks, n, lo, fg)
  }

  lemma ScanStart(cc: CharClasses, keywords: seq<string>, text: string, lo: int, fg: int)
    ensures ScanState(cc, keywords, text, Tokens(cc, keywords, text, 0), 0, 0, [], lo, fg)
  {
    TokensShape(cc, keywords, text, 0);
  }

  /** Taking the token at `pos`, short of the end, moves the loop on by one token. */
  lemma ScanNext(cc: CharClasses, keywords: seq<string>, text: string, toks: seq<Token>, n: nat,
                 pos: nat, token: int, end: nat, styles: seq<StyleRange>, styles': seq<StyleRange>, lo: int, fg: int)
    requires ScanState(cc, keywords, text, toks, n, pos, styles, lo, fg) && pos < |text|
    requires Lex(cc, keywords, text, pos) == Lexeme(token, end)
    requires styles' == Step(styles, token, pos + lo, end - pos, fg)
    ensures ScanState(cc, keywords, text, toks, n + 1, end, styles', lo, fg)
  {
    TokensUnfold(cc, keywords, text, pos);
    SuffixUnfold(toks, n, Token(token, pos, end - pos), Tokens(cc, keywords, text, end));
  }

  /** At the end of the line the loop has built the ranges of all its tokens. */
  lemma ScanDone(cc: CharClasses, keywords: seq<string>, text: string, toks: seq<Token>, n: nat,
                 styles: seq<StyleRange>, lo: int, fg: int)
    requires ScanState(cc, keywords, text, toks, n, |text|, styles, lo, fg)
    ensures styles == TokenStyles(cc, keywords, text, lo, fg)
  {
    assert |toks[n..]| == 0;
  }

  /** The ranges reported for a line, compared with the reference semantics. A line touching
      a block comment is coloured as a comment throughout. Otherwise the ranges are ordered
      and inside the line, none could be merged into the one before it, each is a bold
      keyword range or a normal one differing from the widget's foreground, each starts where
      a token starts, and every character of every token gets exactly the attributes Paint
      assigns it. */
  lemma LineStylesMeaning(spans: seq<Span>, lo: int, text: string, fg: int, cc: CharClasses, keywords: seq<string>, x: int)
    ensures Overlaps(spans, lo, lo + |text|) ==>
      AttrAt(LineStyles(spans, lo, text, fg, cc, keywords), x) ==
        if lo <= x < lo + |text| then Some(Attr(RED, NORMAL)) else None
    ensures !Overlaps(spans, lo, lo + |text|) ==>
      var styles := LineStyles(spans, lo, text, fg, cc, keywords);
      var toks := Tokens(cc, keywords, text, 0);
      && Ordered(styles, lo, lo + |text|)
      && Merged(styles)
      && Consistent(styles, fg)
      && KindsValid(toks)
      && (forall i :: 0 <= i < |styles| ==> exists k :: 0 <= k < |toks| && styles[i].start == lo + toks[k].start)
      && (forall k :: 0 <= k < |toks| && lo + toks[k].start <= x < lo + toks[k].start + toks[k].length ==>
            AttrAt(styles, x) == Paint(toks, k, fg))
      && (x < lo || lo + |text| <= x ==> AttrAt(styles, x) == None)
  {
    var styles := LineStyles(spans, lo, text, fg, cc, keywords);
    if Overlaps(spans, lo, lo + |text|) {
      assert styles == [] + [StyleRange(lo, |text|, RED, NORMAL)];
      AttrAtAppend([], StyleRange(lo, |text|, RED, NORMAL), x);
    } else {
      var toks := Tokens(cc, keywords, text, 0);
      TokensTile(cc, keywords, text);
      StyledInvHolds(toks, |toks|, lo, fg);
      StyledStarts(toks, |toks|, lo, fg);
      if x < lo {
        AttrAtBefore(styles, x);
      } else if lo + |text| <= x {
        AttrAtBeyond(styles, x);
      }
    }
  }

  /** ASCII stand-ins for the Java character classes, for the examples below. */
  const ASCII_CLASSES := CharClasses(
    c => '0' as int <= c <= '9' as int,
    c => c == ' ' as int || c == '\t' as int || c == '\n' as int,
    c => 'a' as int <= c <= 'z' as int || 'A' as int <= c <= 'Z' as int || c == '_' as int,
    c => 'a' as int <= c <= 'z' as int || 'A' as int <= c <= 'Z' as int || c == '_' as int || '0' as int <= c <= '9' as int)

  /** The scanner splits `return this;` into a keyword, a blank, a keyword and a semicolon. */
  lemma ExampleReturnThisTokens()
    ensures Tokens(ASCII_CLASSES, KEYWORDS, "return this;", 0) ==
      [Token(KEY, 0, 6), Token(WHITE, 6, 1), Token(KEY, 7, 4), Token(OTHER, 11, 1)]
  {
    var text, cc := "return this;", ASCII_CLASSES;
    assert Lex(cc, KEYWORDS, text, 0) == Lexeme(KEY, 6) by {
      assert RunEnd(text, 1, cc.isIdentifierPart) == 6;
      assert text[0..6] == KEYWORDS[33];
    }
    assert Lex(cc, KEYWORDS, text, 6) == Lexeme(WHITE, 7) by {
      assert RunEnd(text, 7, cc.isWhitespace) == 7;
    }
    assert Lex(cc, KEYWORDS, text, 7) == Lexeme(KEY, 11) by {
      assert RunEnd(text, 8, cc.isIdentifierPart) == 11;
      assert text[7..11] == KEYWORDS[39];
    }
    assert Lex(cc, KEYWORDS, text, 11) == Lexeme(OTHER, 12);
    assert Tokens(cc, KEYWORDS, text, 11) == [Token(OTHER, 11, 1)];
    assert Tokens(cc, KEYWORDS, text, 7) == [Token(KEY, 7, 4), Token(OTHER, 11, 1)];
    assert Tokens(cc, KEYWORDS, text, 6) == [Token(WHITE, 6, 1), Token(KEY, 7, 4), Token(OTHER, 11, 1)];
  }

  /** A keyword takes the blank after it into its bold range, the next keyword is merged
      into the same range, and the semicolon gets none. */
  lemma ExampleKeywordsMerge()
    ensures LineStyles([], 10, "return this;", BLACK, ASCII_CLASSES, KEYWORDS) == [StyleRange(10, 11, BLUE, BOLD)]
  {
    var toks := [Token(KEY, 0, 6), Token(WHITE, 6, 1), Token(KEY, 7, 4), Token(OTHER, 11, 1)];
    var s1, s2, s3 := [StyleRange(10, 6, BLUE, BOLD)], [StyleRange(10, 7, BLUE, BOLD)], [StyleRange(10, 11, BLUE, BOLD)];
    assert Styled(toks, 1, 10, BLACK) == s1 by {
      assert Step([], KEY, 10, 6, BLACK) == s1;
    }
    assert Styled(toks, 2, 10, BLACK) == s2 by {
      assert Step(s1, WHITE, 16, 1, BLACK) == Extend(s1, 1) == s2;
    }
    assert Styled(toks, 3, 10, BLACK) == s3 by {
      assert Step(s2, KEY, 17, 4, BLACK) == Extend(s2, 4) == s3;
    }
    assert Styled(toks, 4, 10, BLACK) == s3 by {
      assert Step(s3, OTHER, 21, 1, BLACK) == s3;
    }
    assert TokenStyles(ASCII_CLASSES, KEYWORDS, "return this;", 10, BLACK) == Styled(toks, 4, 10, BLACK) by {
      ExampleReturnThisTokens();
    }
  }

  // ---------------------------------------------------------------------------------------
  // The listener object.

  /** StringReader.read on `text` at position `p`: the next character, or -1 at the end. */
  method ReadChar(text: string, p: nat) returns (ch: int, p': nat)
    requires p <= |text|
    ensures p < |text| ==> ch == text[p] as int && p' == p + 1
    ensures p == |text| ==> ch == -1 && p' == p
  {
    if p < |text| {
      ch := text[p] as int;
      p' := p + 1;
    } else {
      ch := -1;
      p' := p;
    }
  }

  class JavaLineStyler {
    var blockComments: seq<Span>
    const scanner: JavaScanner

    ghost predicate Valid()
      reads this, scanner
    {
      scanner.Valid()
    }

    /** A styler with no recorded block comments and a fresh scanner. */
    constructor (cc: CharClasses)
      requires cc.ExcludesEof()
      ensures Valid() && fresh(scanner) && blockComments == []
      ensures scanner.cc == cc && scanner.fgKeywords == KEYWORDS
    {
      blockComments := [];
      scanner := new JavaScanner(cc);
    }

    /** Records the block comments of the whole document `text`. */
    method ParseBlockComments(text: string)
      modifies this`blockComments
      ensures blockComments == BlockSpans(text)
    {
      blockComments := [];
      var p: nat := 0;
      var blkComment := false;
      var cnt := 0;
      var commentStart := 0;
      var done := false;
      while !done
        invariant p <= |text|
        invariant !done ==> cnt == p || (p == |text| && cnt == p + 1)
        invariant !done ==>
          blockComments + PreScan(text, p, cnt, if blkComment then Inside(commentStart) else Outside) == BlockSpans(text)
        invariant done ==> blockComments == BlockSpans(text)
        decreases |text| - p + (if done then 0 else 1)
      {
        var ch;
        ch, p := ReadChar(text, p);
        if ch == -1 {
          if blkComment {
            blockComments := blockComments + [Span(commentStart, cnt)];
          }
          done := true;
        } else if ch == '/' as int {
          ch, p := ReadChar(text, p);
          if ch == '*' as int && !blkComment {
            commentStart := cnt;
            blkComment := true;
            cnt := cnt + 1;
          } else {
            cnt := cnt + 1;
          }
          cnt := cnt + 1;
        } else if ch == '*' as int {
          if blkComment {
            ch, p := ReadChar(text, p);
            cnt := cnt + 1;
            if ch == '/' as int {
              blkComment := false;
              blockComments := blockComments + [Span(commentStart, cnt)];
            }
          }
          cnt := cnt + 1;
        } else {
          cnt := cnt + 1;
        }
      }
    }

    /** Whether the closed range [start, end] touches a recorded block comment. */
    method InBlockComment(start: int, end: int) returns (r: bool)
      ensures r == Overlaps(blockComments, start, end)
    {
      for i := 0 to |blockComments|
        invariant forall j :: 0 <= j < i ==> !Touches(blockComments[j], start, end)
      {
        var offsets := blockComments[i];
        if offsets.start >= start && offsets.start <= end {
          return true;
        }
        if offsets.end >= start && offsets.end <= end {
          return true;
        }
        if offsets.start <= start && offsets.end >= end {
          return true;
        }
      }
      return false;
    }

    /** The body of lineGetStyle's loop for the token `token` at document offset `start`,
        of length `length`: how it changes the ranges built so far. */
    method AddTokenStyle(styles: seq<StyleRange>, token: int, start: int, length: int, defaultFg: int)
      returns (r: seq<StyleRange>)
      requires IsTokenKind(token)
      ensures r == Step(styles, token, start, length, defaultFg)
    {
      r := styles;
      if token == OTHER {
        // no style for tokens that are not coloured
      } else if token != WHITE {
        var color := GetColor(token).value;
        // a style only where the colour differs from the widget's, or for a bold keyword
        if color != defaultFg || token == KEY {
          var style := StyleRange(start, length, color, NORMAL);
          if token == KEY {
            style := style.(fontStyle := BOLD);
          }
          if r == [] {
            r := [style];
          } else {
            var lastStyle := r[|r| - 1];
            if SimilarTo(lastStyle, style) && lastStyle.start + lastStyle.length == style.start {
              r := r[..|r| - 1] + [lastStyle.(length := lastStyle.length + style.length)];
            } else {
              r := r + [style];
            }
          }
        }
      } else if r != [] && r[|r| - 1].fontStyle == BOLD {
        var lastStyle := r[|r| - 1];
        // whitespace right after a keyword takes on its bold style
        if lastStyle.start + lastStyle.length == start {
          r := r[..|r| - 1] + [lastStyle.(length := lastStyle.length + length)];
        }
      }
    }

    /** The style ranges for the line `lineText` at document offset `lineOffset`, on a widget
        whose foreground is `defaultFg`. */
    method LineGetStyle(lineOffset: int, lineText: string, defaultFg: int) returns (styles: seq<StyleRange>)
      requires Valid()
      modifies scanner
      ensures Valid()
      ensures styles == LineStyles(blockComments, lineOffset, lineText, defaultFg, scanner.cc, scanner.fgKeywords)
      ensures Overlaps(blockComments, lineOffset, lineOffset + |lineText|) ==> unchanged(scanner)
      ensures !Overlaps(blockComments, lineOffset, lineOffset + |lineText|) ==>
        scanner.fDoc == lineText && scanner.fPos == |lineText|
    {
      var inComment := InBlockComment(lineOffset, lineOffset + |lineText|);
      if inComment {
        styles := [StyleRange(lineOffset, |lineText|, GetColor(COMMENT).value, NORMAL)];
        return;
      }
      styles := StyleTokens(lineOffset, lineText, defaultFg);
    }

    /** The part of lineGetStyle after the block-comment test: scans the line token by token
        and builds its ranges. */
    method StyleTokens(lineOffset: int, lineText: string, defaultFg: int) returns (styles: seq<StyleRange>)
      requires Valid()
      modifies scanner
      ensures Valid() && scanner.fDoc == lineText && scanner.fPos == |lineText|
      ensures styles == TokenStyles(scanner.cc, scanner.fgKeywords, lineText, lineOffset, defaultFg)
    {
      styles := [];
      scanner.SetRange(lineText);
      ghost var cc, keywords := scanner.cc, scanner.fgKeywords;
      ghost var toks := Tokens(cc, keywords, lineText, 0);
      ghost var n := 0;
      ScanStart(cc, keywords, lineText, lineOffset, defaultFg);
      var token := scanner.NextToken();
      while token != EOF
        invariant scanner.Valid() && scanner.fDoc == lineText && 0 <= scanner.fStartToken
        invariant ScanState(cc, keywords, lineText, toks, n, scanner.fStartToken, styles, lineOffset, defaultFg)
        invariant Lex(cc, keywords, lineText, scanner.fStartToken) == Lexeme(token, scanner.fPos)
        decreases |lineText| - scanner.fStartToken
      {
        var start, length := scanner.GetStartOffset(), scanner.GetLength();
        ghost var before, end := styles, scanner.fPos;
        styles := AddTokenStyle(styles, token, start + lineOffset, length, defaultFg);
        ScanNext(cc, keywords, lineText, toks, n, start, token, end, before, styles, lineOffset, defaultFg);
        n := n + 1;
        token := scanner.NextToken();
      }
      ScanDone(cc, keywords, lineText, toks, n, styles, lineOffset, defaultFg);
    }
  }
}
