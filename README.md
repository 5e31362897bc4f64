# JavaLineStyler: a verified model of the Java viewer's syntax highlighter

This project models the incremental syntax-highlighting engine of the SWT Java viewer
example (`JavaLineStyler`), and proves properties of it. The engine has three parts.

- **The scanner** (`JavaScanner`, module `Scanner`, file `scanner.dfy`). It is a fuzzy
  single-line Java lexer over a document string. It keeps a cursor `fPos` with a
  one-character pushback (`read`/`unread`), the start of the current token `fStartToken`,
  and a buffer `fBuffer` where it collects identifiers. `nextToken` returns one of these
  codes:
  - WORD, or KEY (an identifier found in the keyword table);
  - WHITE;
  - COMMENT (`//` up to the line feed);
  - STRING (quote-delimited, with backslash escapes);
  - NUMBER;
  - OTHER;
  - EOF.

  The class is proved against `Lex`, a function that gives the token at a position.
  `Tokens` is the list of tokens that successive `nextToken` calls return.
- **The block-comment pre-scan** (`parseBlockComments` and `inBlockComment`, module
  `BlockComments`, file `block_comments.dfy`, plus the styler's methods).
  - One pass over the whole document records the `/* ... */` regions as start/end pairs.
    The specification of that pass is `PreScan`/`BlockSpans`.
  - A line is treated as a comment when its closed range touches any recorded region
    (`Overlaps`).
- **The per-line styling policy** (`lineGetStyle`, `getColor` and the `tokenColors` table,
  module `LineStyler`, file `line_styler.dfy`).
  - A line that touches a block comment gets one comment-coloured range.
  - Otherwise each token of the line is turned into style ranges by `Step`:
    - OTHER tokens get none, non-keyword tokens in the widget's own colour get none, and
      whitespace gets none of its own (a keyword gets its bold range even when blue is
      the widget's colour);
    - keywords are bold and blue;
    - a range similar to the last one and contiguous with it extends the last one;
    - whitespace right after a bold range is folded into it.
  - `LineStyles` is the specification of the whole method.
  - `Shade`/`Paint` is an independent reference semantics: which attributes each
    character of each token should end up with. `LineStylesMeaning` proves that the
    ranges agree with it, character by character.

The object state is modelled as classes. `JavaScanner` updates `fPos`, `fStartToken` and
`fBuffer` in place; its `getLength` and `getStartOffset` are modelled as the field reads
`GetLength` (`fPos - fStartToken`) and `GetStartOffset` (`fStartToken`), through which
`StyleTokens` rebuilds each token. `JavaLineStyler` holds `blockComments` and the scanner. Each method is
proved equal to its specification function. The properties are proved about those
functions.

Colours are palette indices: black 0, red 1, green 2, blue 3. Font styles are normal 0
and bold 1. The widget's foreground colour is a parameter. It may be any integer; a value
outside 0..3 matches no palette colour.

Some behaviour of the code is reproduced as written:
- A recorded span ends at the offset of the closing `/`, not one past it. So
  `"/* a */ int x;"` gives `Span(0, 6)` (`BlockComments.ExampleSpanEnd`).
- The character after a `/`, and the character after a `*` inside a comment, are consumed
  without being examined. So `//*` opens no comment, and `/***/` does not close one
  (`ExampleSlashSlashStar`, `ExampleUnclosed`).
- The counter goes one past the length of the text only when the scan itself reads the
  final character as a `/`, or as a `*` inside a comment, and so consumes a second
  character that is not there. The last span of an unclosed comment then ends at
  `|text| + 1`: `/***/` and `/* a /` give `Span(0, 6)` and `Span(0, 7)`. When that final
  `/` or `*` is itself the character swallowed unexamined after a `/` or an in-comment
  `*`, there is no overshoot: `/* a//` and `/* a**` both give `Span(0, 6)`
  (`ExampleUnclosed`, `ExampleFinalCharacter`).
- String and char literals run to the matching quote or to the end of input, across line
  feeds.

## Model

Source paths are relative to the repository root; every member models
`JavaLineStyler.java`.

| member | source | states |
|---|---|---|
| Scanner.RunEnd | org.eclipse.swt.examples/src/org/eclipse/swt/examples/javaviewer/JavaLineStyler.java:130-149 | The end of the run that the `do ... while (class(c))` loops collect lies between the start and the end of the document; maximality is in RunEndIsMaximal |
| Scanner.RunEndIsMaximal | org.eclipse.swt.examples/src/org/eclipse/swt/examples/javaviewer/JavaLineStyler.java:130-149 | Every character before the run end is in the class, and the character at the run end (if any) is not |
| Scanner.LineEnd | org.eclipse.swt.examples/src/org/eclipse/swt/examples/javaviewer/JavaLineStyler.java:81-87 | The end of a `//` comment lies between its body start and the end of the document |
| Scanner.LineEndIsFirstFeed | org.eclipse.swt.examples/src/org/eclipse/swt/examples/javaviewer/JavaLineStyler.java:81-87 | The `//` comment stops at the first line feed (excluded) or at end of input: no line feed lies before its end |
| Scanner.LiteralEnd | org.eclipse.swt.examples/src/org/eclipse/swt/examples/javaviewer/JavaLineStyler.java:90-118 | The end of a quoted literal is within the document; when it is short of the end of input, the character just before it is the closing quote; which quote that is, is LiteralEndIsFirstClosingQuote |
| Scanner.Lex | org.eclipse.swt.examples/src/org/eclipse/swt/examples/javaviewer/JavaLineStyler.java:71-157 | The token at a position is EOF exactly at the end of the line, where it does not move; anywhere else it is non-empty, stays within the line and has one of the seven token codes |
| Scanner.Tokens | org.eclipse.swt.examples/src/org/eclipse/swt/examples/javaviewer/JavaLineStyler.java:231-268 | Successive nextToken calls from a position yield no token exactly when the position is the end of the line |
| Scanner.TokensShape | org.eclipse.swt.examples/src/org/eclipse/swt/examples/javaviewer/JavaLineStyler.java:57-77 | The tokens partition the rest of the line: the first starts at the position, each starts where the previous one ended, each has length at least 1 and a valid code, and the last ends at the end of the line |
| Scanner.TokensCoverLine | org.eclipse.swt.examples/src/org/eclipse/swt/examples/javaviewer/JavaLineStyler.java:57-77 | The token lengths add up to the length of the rest of the line |
| Scanner.LineCommentToken | org.eclipse.swt.examples/src/org/eclipse/swt/examples/javaviewer/JavaLineStyler.java:78-87 | `//` yields a COMMENT with no line feed in it, ending at the first line feed or at end of input |
| Scanner.SlashToken | org.eclipse.swt.examples/src/org/eclipse/swt/examples/javaviewer/JavaLineStyler.java:78-89 | A `/` not followed by `/` is a one-character OTHER |
| Scanner.LiteralEndsAtQuote | org.eclipse.swt.examples/src/org/eclipse/swt/examples/javaviewer/JavaLineStyler.java:90-103 | With no backslash or quote before the first closing quote, the literal ends just past that quote |
| Scanner.LiteralUnterminated | org.eclipse.swt.examples/src/org/eclipse/swt/examples/javaviewer/JavaLineStyler.java:105-118 | With no closing quote left, the literal runs to the end of input, backslashes included |
| Scanner.LiteralEndIsFirstClosingQuote | org.eclipse.swt.examples/src/org/eclipse/swt/examples/javaviewer/JavaLineStyler.java:90-118 | A backslash skips the character after it: the literal ends just past the first quote with an even number of backslashes right before it, and at the end of input when no such quote exists |
| Scanner.ExampleEscapedQuote | org.eclipse.swt.examples/src/org/eclipse/swt/examples/javaviewer/JavaLineStyler.java:90-103 | In `'a\'b'` the escaped quote does not close the literal; in `'a'b'` the literal ends after the second quote |
| Scanner.LiteralToken | org.eclipse.swt.examples/src/org/eclipse/swt/examples/javaviewer/JavaLineStyler.java:90-118 | A `'` or `"` starts a STRING that ends just past the first matching quote no backslash protects, or at end of input when there is none |
| Scanner.NumberToken | org.eclipse.swt.examples/src/org/eclipse/swt/examples/javaviewer/JavaLineStyler.java:120-134 | A leading ASCII digit starts a NUMBER that is a maximal run of digits |
| Scanner.WhiteToken | org.eclipse.swt.examples/src/org/eclipse/swt/examples/javaviewer/JavaLineStyler.java:136-142 | A whitespace character starts a WHITE token that is a maximal whitespace run |
| Scanner.IdentifierToken | org.eclipse.swt.examples/src/org/eclipse/swt/examples/javaviewer/JavaLineStyler.java:143-154 | An identifier start begins a maximal identifier run, which is KEY exactly when its text is a keyword and WORD otherwise |
| Scanner.OtherToken | org.eclipse.swt.examples/src/org/eclipse/swt/examples/javaviewer/JavaLineStyler.java:155 | Any other character is a one-character OTHER |
| Scanner.JavaScanner.constructor | org.eclipse.swt.examples/src/org/eclipse/swt/examples/javaviewer/JavaLineStyler.java:41-52 | A new scanner has the 48 keywords, a keyword table built from them, an empty buffer and the cursor at 0 |
| Scanner.JavaScanner.Initialize | org.eclipse.swt.examples/src/org/eclipse/swt/examples/javaviewer/JavaLineStyler.java:182-187 | The lookup table holds exactly the keywords, each mapped to KEY |
| Scanner.JavaScanner.SetRange | org.eclipse.swt.examples/src/org/eclipse/swt/examples/javaviewer/JavaLineStyler.java:159-163 | The scanner is pointed at the start of the text, with fEnd its last index |
| Scanner.JavaScanner.Read | org.eclipse.swt.examples/src/org/eclipse/swt/examples/javaviewer/JavaLineStyler.java:168-172 | Returns the character at the cursor and advances it, or EOF without moving at the end |
| Scanner.JavaScanner.Unread | org.eclipse.swt.examples/src/org/eclipse/swt/examples/javaviewer/JavaLineStyler.java:174-177 | Pushing back the character just read restores the cursor to where it was read; pushing back EOF does nothing |
| Scanner.JavaScanner.NextToken | org.eclipse.swt.examples/src/org/eclipse/swt/examples/javaviewer/JavaLineStyler.java:71-157 | The token starts at the old cursor, its code and end are those Lex gives there, the cursor stays in the document, and for identifiers the buffer holds the token's text |
| Scanner.JavaScanner.ScanDefault | org.eclipse.swt.examples/src/org/eclipse/swt/examples/javaviewer/JavaLineStyler.java:135-155 | The default arm gives the whitespace run, keyword or word, or one-character OTHER that Lex gives |
| Scanner.JavaScanner.ScanSlash | org.eclipse.swt.examples/src/org/eclipse/swt/examples/javaviewer/JavaLineStyler.java:78-89 | The `/` arm gives the `//` comment or lone OTHER that Lex gives |
| Scanner.JavaScanner.ScanLiteral | org.eclipse.swt.examples/src/org/eclipse/swt/examples/javaviewer/JavaLineStyler.java:90-118 | The quote loops stop where LiteralEnd says |
| Scanner.JavaScanner.ScanRun | org.eclipse.swt.examples/src/org/eclipse/swt/examples/javaviewer/JavaLineStyler.java:130-140 | The digit and whitespace loops stop at the end of the maximal run |
| Scanner.JavaScanner.ScanIdentifier | org.eclipse.swt.examples/src/org/eclipse/swt/examples/javaviewer/JavaLineStyler.java:144-149 | The identifier loop stops at the end of the maximal run, and the buffer holds exactly the identifier's text |
| BlockComments.PreScanShape | org.eclipse.swt.examples/src/org/eclipse/swt/examples/javaviewer/JavaLineStyler.java:284-323 | From any state the loop passes through, the spans are in document order and none overlaps the next. Each opens at a `/*` and ends after it starts. Each but the last is closed by the `*/` whose `/` is its end. The last one is closed, or ends at the end of input (the text's length, or one more) |
| BlockComments.BlockSpansShape | org.eclipse.swt.examples/src/org/eclipse/swt/examples/javaviewer/JavaLineStyler.java:274-327 | The spans of a whole document have that shape from offset 0 |
| BlockComments.PreScanPlain | org.eclipse.swt.examples/src/org/eclipse/swt/examples/javaviewer/JavaLineStyler.java:284-321 | Characters other than `/` and `*` only advance the counter: the spans recorded are those of the rest of the text |
| BlockComments.PreScanRecordsComment | org.eclipse.swt.examples/src/org/eclipse/swt/examples/javaviewer/JavaLineStyler.java:284-323 | A `/*` reached outside a comment, with no `/` or `*` before it or inside the comment, is recorded as a span ending at the first `*/`, and the scan goes on outside a comment past it |
| BlockComments.PreScanRecordsUnclosed | org.eclipse.swt.examples/src/org/eclipse/swt/examples/javaviewer/JavaLineStyler.java:284-323 | Such a `/*` with no `/` or `*` after it is recorded as a span running to the end of input |
| BlockComments.PreScanRecordsNothing | org.eclipse.swt.examples/src/org/eclipse/swt/examples/javaviewer/JavaLineStyler.java:284-323 | Text with no `/` or `*` records no span |
| BlockComments.TouchesIsIntersection | org.eclipse.swt.examples/src/org/eclipse/swt/examples/javaviewer/JavaLineStyler.java:343-350 | For a well-formed span and range, the three tests amount to the closed intervals intersecting, in both directions |
| BlockComments.OverlapsIsIntersection | org.eclipse.swt.examples/src/org/eclipse/swt/examples/javaviewer/JavaLineStyler.java:340-353 | For recorded spans, the overlap test holds exactly when some span `[o0, o1]` has `o0 <= end && o1 >= start` |
| BlockComments.ExampleTwoLineComment | org.eclipse.swt.examples/src/org/eclipse/swt/examples/javaviewer/JavaLineStyler.java:274-353 | A comment over two lines is one span from the opening `/` to the closing `/`; both lines touch it, the following one does not |
| BlockComments.ExampleSpanEnd | org.eclipse.swt.examples/src/org/eclipse/swt/examples/javaviewer/JavaLineStyler.java:306-314 | `/* a */ int x;` records Span(0, 6): the end is the closing `/` |
| BlockComments.ExampleSlashSlashStar | org.eclipse.swt.examples/src/org/eclipse/swt/examples/javaviewer/JavaLineStyler.java:294-305 | `//* x */` opens no comment |
| BlockComments.ExampleUnclosed | org.eclipse.swt.examples/src/org/eclipse/swt/examples/javaviewer/JavaLineStyler.java:286-318 | `/***/` is not closed, and its span ends one past the text |
| BlockComments.ExampleFinalCharacter | org.eclipse.swt.examples/src/org/eclipse/swt/examples/javaviewer/JavaLineStyler.java:286-318 | A final `/` read by the scan overshoots the counter (`/* a /` ends at 7); a final `/` or `*` swallowed after a `/` or an in-comment `*` does not (`/* a//` and `/* a**` end at 6) |
| LineStyler.GetColor | org.eclipse.swt.examples/src/org/eclipse/swt/examples/javaviewer/JavaLineStyler.java:334-338 | No colour outside the token table `[0, 8)`. Otherwise a palette colour: blue exactly for KEY, red exactly for COMMENT, green exactly for STRING |
| LineStyler.StepCases | org.eclipse.swt.examples/src/org/eclipse/swt/examples/javaviewer/JavaLineStyler.java:234-267 | One pass of the loop does one of three things. It leaves the ranges alone when the token gets no attributes. It extends the last range when the token joins it with equal attributes. Otherwise it appends a consistent range for the token that could not be merged into the last one |
| LineStyler.StepAttrs | org.eclipse.swt.examples/src/org/eclipse/swt/examples/javaviewer/JavaLineStyler.java:234-267 | One pass leaves everything before the token as it was, gives the token's characters the attributes Shade assigns, and leaves a last range reaching the token's end exactly when Shade gives some |
| LineStyler.AppendShape | org.eclipse.swt.examples/src/org/eclipse/swt/examples/javaviewer/JavaLineStyler.java:246-254 | Adding a range past the others that cannot be merged keeps the list ordered, merged and consistent |
| LineStyler.ExtendShape | org.eclipse.swt.examples/src/org/eclipse/swt/examples/javaviewer/JavaLineStyler.java:251-252 | Lengthening the last range in place keeps the list ordered, merged and consistent |
| LineStyler.StepShape | org.eclipse.swt.examples/src/org/eclipse/swt/examples/javaviewer/JavaLineStyler.java:234-267 | One pass keeps the ranges ordered within the line, merged (no range similar to and contiguous with the one before), and consistent (bold blue keyword ranges, or normal ranges in a colour other than the widget's) |
| LineStyler.StyledInvHolds | org.eclipse.swt.examples/src/org/eclipse/swt/examples/javaviewer/JavaLineStyler.java:233-269 | After any number of tokens the ranges are ordered, merged and consistent, and every character of every token so far has exactly the attributes Paint assigns |
| LineStyler.StyledStarts | org.eclipse.swt.examples/src/org/eclipse/swt/examples/javaviewer/JavaLineStyler.java:242-243 | Every range starts at the line offset plus the start of some token |
| LineStyler.LineStylesMeaning | org.eclipse.swt.examples/src/org/eclipse/swt/examples/javaviewer/JavaLineStyler.java:218-272 | A line touching a block comment is red and normal at every character of the line and nowhere else. Otherwise the ranges are ordered within the line, of positive length, merged and consistent, and start at token starts. Each character of each token has the attributes of the reference semantics Paint, and nothing outside the line is styled |
| LineStyler.ExampleReturnThisTokens | org.eclipse.swt.examples/src/org/eclipse/swt/examples/javaviewer/JavaLineStyler.java:71-157 | `return this;` scans as KEY, WHITE, KEY, OTHER |
| LineStyler.ExampleKeywordsMerge | org.eclipse.swt.examples/src/org/eclipse/swt/examples/javaviewer/JavaLineStyler.java:241-266 | In `return this;` the blank joins the first keyword's bold range, the second keyword is merged into it, and the semicolon gets none: one range of length 11 |
| LineStyler.ReadChar | org.eclipse.swt.examples/src/org/eclipse/swt/examples/javaviewer/JavaLineStyler.java:285 | Reading the document gives the next character and advances, or -1 without moving at the end |
| LineStyler.JavaLineStyler.constructor | org.eclipse.swt.examples/src/org/eclipse/swt/examples/javaviewer/JavaLineStyler.java:202-212 | A new styler has no recorded comments and a fresh scanner with the keyword table |
| LineStyler.JavaLineStyler.ParseBlockComments | org.eclipse.swt.examples/src/org/eclipse/swt/examples/javaviewer/JavaLineStyler.java:274-327 | The loop replaces the recorded comments with exactly the spans of the document (BlockSpans, whose shape is BlockSpansShape) |
| LineStyler.JavaLineStyler.InBlockComment | org.eclipse.swt.examples/src/org/eclipse/swt/examples/javaviewer/JavaLineStyler.java:340-353 | Returns true exactly when some recorded span touches the closed range `[start, end]`; it changes nothing |
| LineStyler.JavaLineStyler.AddTokenStyle | org.eclipse.swt.examples/src/org/eclipse/swt/examples/javaviewer/JavaLineStyler.java:234-267 | The body of the loop, with its in-place merge, computes exactly one Step |
| LineStyler.JavaLineStyler.LineGetStyle | org.eclipse.swt.examples/src/org/eclipse/swt/examples/javaviewer/JavaLineStyler.java:218-272 | Returns exactly LineStyles. A line touching a block comment gets the single comment range, and the scanner is left untouched. Otherwise the scanner ends at the end of the line |
| LineStyler.JavaLineStyler.StyleTokens | org.eclipse.swt.examples/src/org/eclipse/swt/examples/javaviewer/JavaLineStyler.java:230-271 | Scanning the line token by token and folding each token in gives exactly the ranges of all its tokens |

## Left out

- Colour resources are not modelled: `initializeColors` allocating `Color`s on the `Display`,
  and `disposeColors`. Colours are palette indices 0..3, and `tokenColors` is a constant
  table (`TOKEN_COLORS`).
- The widget's foreground colour (`getForeground()` on the event's widget) is a parameter
  of `LineGetStyle`.
- `StyleRange.similarTo` is modelled as equality of foreground and font style. Those are
  the only attributes the styler sets.
- `StyleRange` is a value. Extending `lastStyle.length` in place is modelled as replacing
  the last element of the list. The list is local to the call, so no one else observes
  the update. Copying the list into the event's array is the return value.
- The `StringReader` and its `IOException` handling are not modelled. The document is a
  sequence, and `ReadChar` keeps the "-1 repeatedly past the end" behaviour.
- The Java character classes (`Character.isDigit`, `isWhitespace`, `isJavaIdentifierStart`,
  `isJavaIdentifierPart`) are parameters of the scanner (`CharClasses`). The model assumes
  that the EOF code is in none of them. The examples use ASCII stand-ins.
- The `offsets` arrays of `parseBlockComments` are `Span` values. The array that
  `offsets` names at the start of the pass is never recorded, so nothing observes the
  difference.
- `fEofSeen` is never read or written by the code and is not modelled. The scanner's
  document starts as `""` rather than `null`, and `fEnd` starts as `-1` (its last index)
  rather than 0. Calling `nextToken` before `setRange` would throw in the code; no caller
  does that, so the difference is never observed.
- Documents are Dafny strings, sequences of Unicode scalar values, and every offset counts
  those. Java's `length()`, `charAt` and `StringReader.read` count UTF-16 code units, so a
  character outside the Basic Multilingual Plane is one unit here and two surrogates there.
  Text outside the BMP is therefore not modelled: on such a line the token starts and
  lengths, the style offsets and the pre-scan counter would be one smaller per such
  character, and the character classes would see one character instead of two surrogates.
  Offsets are unbounded integers; Java's `int` offsets cannot overflow, because a `String`
  is shorter than 2^31 units.
- `LineGetStyle` hands its scanning part to `StyleTokens`. The event object is replaced by
  parameters (offset, text) and a return value.
- The other files of the repository are UI test glue (SWTBotView.java, SWTBotLink.java,
  ComboTextModifyRule.java, SWTBotComboTest.java, ControlFinderTest.java,
  SWTBotNebulaTestCase.java). They are not part of this model.
