/** The fuzzy single-line Java scanner of the Java viewer example (the inner class
    JavaScanner of JavaLineStyler), and the specification it is proved against. */
module Scanner {

  // Token codes, as the styler declares them (4 is unused).
  const WORD := 0
  const WHITE := 1
  const KEY := 2
  const COMMENT := 3
  const STRING := 5
  const OTHER := 6
  const NUMBER := 7
  const MAXIMUM_TOKEN := 8
  // What read() returns once the document is exhausted, and the code of a line feed.
  const EOF := -1
  const EOL := 10

  /** The codes nextToken can return for a non-empty token. */
  predicate IsTokenKind(k: int) {
    k == WORD || k == WHITE || k == KEY || k == COMMENT || k == STRING || k == OTHER || k == NUMBER
  }

  /** The reserved words the scanner turns from WORD into KEY. */
  const KEYWORDS: seq<string> := [
    "abstract", "boolean", "break", "byte", "case", "catch", "char",
    "class", "continue", "default", "do", "double", "else", "extends",
    "false", "final", "finally", "float", "for", "if", "implements",
    "import", "instanceof", "int", "interface", "long", "native",
    "new", "null", "package", "private", "protected", "public",
    "return", "short", "static", "super", "switch", "synchronized",
    "this", "throw", "throws", "transient", "true", "try", "void",
    "volatile", "while"]

  /** The character classes of the Java runtime the scanner consults
      (Character.isDigit, isWhitespace, isJavaIdentifierStart, isJavaIdentifierPart),
      each applied to the code that read() returned. */
  datatype CharClasses = CharClasses(
    isDigit: int -> bool,
    isWhitespace: int -> bool,
    isIdentifierStart: int -> bool,
    isIdentifierPart: int -> bool)
  {
    /** The end-of-input code belongs to no class. */
    predicate ExcludesEof() {
      !isDigit(EOF) && !isWhitespace(EOF) && !isIdentifierStart(EOF) && !isIdentifierPart(EOF)
    }
  }

  /** A keyword lookup table for `keywords`: each maps to KEY, nothing else is in it. */
  ghost predicate KeyTable(m: map<string, int>, keywords: seq<string>) {
    (forall w :: w in m <==> w in keywords) && (forall w :: w in m ==> m[w] == KEY)
  }

  /** The next token's code and the position just past it. */
  datatype Lexeme = Lexeme(kind: int, end: int)

  /** A token of a scanned line: its code, start offset and length. */
  datatype Token = Token(kind: int, start: int, length: int)

  /** End of a maximal run of characters satisfying `p`, starting at `i`. */
  function RunEnd(doc: string, i: nat, p: int -> bool): (r: nat)
    requires i <= |doc|
    ensures i <= r <= |doc|
    decreases |doc| - i
  {
    if i == |doc| || !p(doc[i] as int) then i else RunEnd(doc, i + 1, p)
  }

  /** RunEnd finds the maximal run: every character before it satisfies `p`, and the one
      at it (if any) does not. */
  lemma {:induction false} RunEndIsMaximal(doc: string, i: nat, p: int -> bool)
    requires i <= |doc|
    ensures forall k :: i <= k < RunEnd(doc, i, p) ==> p(doc[k] as int)
    ensures RunEnd(doc, i, p) == |doc| || !p(doc[RunEnd(doc, i, p)] as int)
    decreases |doc| - i
  {
    if i < |doc| && p(doc[i] as int) {
      RunEndIsMaximal(doc, i + 1, p);
    }
  }

  /** End of a `//` comment whose body starts at `i`: the first line feed, or the end. */
  function LineEnd(doc: string, i: nat): (r: nat)
    requires i <= |doc|
    ensures i <= r <= |doc|
    decreases |doc| - i
  {
    if i == |doc| || doc[i] == '\n' then i else LineEnd(doc, i + 1)
  }

  /** LineEnd stops at the first line feed: none comes before it. */
  lemma {:induction false} LineEndIsFirstFeed(doc: string, i: nat)
    requires i <= |doc|
    ensures forall k :: i <= k < LineEnd(doc, i) ==> doc[k] != '\n'
    ensures LineEnd(doc, i) == |doc| || doc[LineEnd(doc, i)] == '\n'
    decreases |doc| - i
  {
    if i < |doc| && doc[i] != '\n' {
      LineEndIsFirstFeed(doc, i + 1);
    }
  }

  /** End of a literal delimited by `quote` whose body starts at `i`: just past the
      first quote not protected by a backslash, or the end of input. */
  function LiteralEnd(doc: string, i: nat, quote: char): (r: nat)
    requires i <= |doc|
    ensures i <= r <= |doc|
    ensures r < |doc| ==> i < r && doc[r - 1] == quote
    decreases |doc| - i
  {
    if i == |doc| then i
    else if doc[i] == quote then i + 1
    else if doc[i] == '\\' then (if i + 1 < |doc| then LiteralEnd(doc, i + 2, quote) else |doc|)
    else LiteralEnd(doc, i + 1, quote)
  }

  /** The token nextToken recognises at position `pos` of `doc`. */
  function Lex(cc: CharClasses, keywords: seq<string>, doc: string, pos: nat): (t: Lexeme)
    requires pos <= |doc|
    ensures t.kind == EOF <==> pos == |doc|
    ensures pos == |doc| ==> t.end == pos
    ensures pos < |doc| ==> pos < t.end <= |doc| && IsTokenKind(t.kind)
  {
    if pos == |doc| then Lexeme(EOF, pos)
    else
      var c := doc[pos] as int;
      if c == '/' as int then
        if pos + 1 < |doc| && doc[pos + 1] == '/' then Lexeme(COMMENT, LineEnd(doc, pos + 2))
        else Lexeme(OTHER, pos + 1)
      else if c == '\'' as int || c == '"' as int then Lexeme(STRING, LiteralEnd(doc, pos + 1, doc[pos]))
      else if '0' as int <= c <= '9' as int then Lexeme(NUMBER, RunEnd(doc, pos + 1, cc.isDigit))
      else if cc.isWhitespace(c) then Lexeme(WHITE, RunEnd(doc, pos + 1, cc.isWhitespace))
      else if cc.isIdentifierStart(c) then
        var e := RunEnd(doc, pos + 1, cc.isIdentifierPart);
        Lexeme(if doc[pos..e] in keywords then KEY else WORD, e)
      else Lexeme(OTHER, pos + 1)
  }

  /** The tokens successive nextToken calls return from `pos` until EOF. */
  function Tokens(cc: CharClasses, keywords: seq<string>, doc: string, pos: nat): (r: seq<Token>)
    requires pos <= |doc|
    ensures r == [] <==> pos == |doc|
    decreases |doc| - pos
  {
    if pos == |doc| then []
    else
      var t := Lex(cc, keywords, doc, pos);
      [Token(t.kind, pos, t.end - pos)] + Tokens(cc, keywords, doc, t.end)
  }

  /** The tokens from `pos` follow one another without gap from `pos` to the end of the line,
      each non-empty and of a valid code. */
  lemma {:induction false} TokensShape(cc: CharClasses, keywords: seq<string>, doc: string, pos: nat)
    requires pos <= |doc|
    ensures var r := Tokens(cc, keywords, doc, pos);
      && (r != [] ==> r[0].start == pos && r[|r| - 1].start + r[|r| - 1].length == |doc|)
      && (forall k :: 0 <= k < |r| ==>
            IsTokenKind(r[k].kind) && pos <= r[k].start && 1 <= r[k].length && r[k].start + r[k].length <= |doc|)
      && (forall j, k :: 0 <= j < k < |r| && k == j + 1 ==> r[j].start + r[j].length == r[k].start)
    decreases |doc| - pos
  {
    if pos < |doc| {
      var t := Lex(cc, keywords, doc, pos);
      var r := Tokens(cc, keywords, doc, pos);
      var rest := Tokens(cc, keywords, doc, t.end);
      TokensShape(cc, keywords, doc, t.end);
      assert r == [Token(t.kind, pos, t.end - pos)] + rest;
      forall k | 1 <= k < |r| ensures r[k] == rest[k - 1] { }
    }
  }

  /** Sum of the lengths of `toks`. */
  function TotalLength(toks: seq<Token>): int {
    if toks == [] then 0 else toks[0].length + TotalLength(toks[1..])
  }

  /** The tokens partition the rest of the line: their lengths add up to what is left. */
  lemma {:induction false} TokensCoverLine(cc: CharClasses, keywords: seq<string>, doc: string, pos: nat)
    requires pos <= |doc|
    ensures TotalLength(Tokens(cc, keywords, doc, pos)) == |doc| - pos
    decreases |doc| - pos
  {
    if pos < |doc| {
      var t := Lex(cc, keywords, doc, pos);
      var toks := Tokens(cc, keywords, doc, pos);
      assert toks[1..] == Tokens(cc, keywords, doc, t.end);
      TokensCoverLine(cc, keywords, doc, t.end);
    }
  }

  /** `//` starts a COMMENT running up to, and excluding, the first line feed. */
  lemma LineCommentToken(cc: CharClasses, keywords: seq<string>, doc: string, pos: nat)
    requires pos + 1 < |doc| && doc[pos] == '/' && doc[pos + 1] == '/'
    ensures Lex(cc, keywords, doc, pos).kind == COMMENT
    ensures forall k :: pos <= k < Lex(cc, keywords, doc, pos).end ==> doc[k] != '\n'
    ensures Lex(cc, keywords, doc, pos).end == |doc| || doc[Lex(cc, keywords, doc, pos).end] == '\n'
  {
    LineEndIsFirstFeed(doc, pos + 2);
  }

  /** A `/` not followed by `/` is a one-character OTHER token. */
  lemma SlashToken(cc: CharClasses, keywords: seq<string>, doc: string, pos: nat)
    requires pos < |doc| && doc[pos] == '/' && !(pos + 1 < |doc| && doc[pos + 1] == '/')
    ensures Lex(cc, keywords, doc, pos) == Lexeme(OTHER, pos + 1)
  {
  }

  /** A quote opens a STRING token that ends at and includes the first closing quote,
      when no backslash comes before it. */
  lemma {:induction false} LiteralEndsAtQuote(doc: string, i: nat, quote: char, j: nat)
    requires i <= j < |doc| && doc[j] == quote
    requires forall k :: i <= k < j ==> doc[k] != quote && doc[k] != '\\'
    ensures LiteralEnd(doc, i, quote) == j + 1
    decreases j - i
  {
    if i < j {
      LiteralEndsAtQuote(doc, i + 1, quote, j);
    }
  }

  /** With no closing quote left, the literal runs to the end of input (backslashes
      still protect the next character). */
  lemma {:induction false} LiteralUnterminated(doc: string, i: nat, quote: char)
    requires i <= |doc|
    requires forall k :: i <= k < |doc| ==> doc[k] != quote
    ensures LiteralEnd(doc, i, quote) == |doc|
    decreases |doc| - i
  {
    if i < |doc| {
      if doc[i] == '\\' {
        if i + 1 < |doc| {
          LiteralUnterminated(doc, i + 2, quote);
        }
      } else {
        LiteralUnterminated(doc, i + 1, quote);
      }
    }
  }

  /** The number of backslashes standing right before `j`, counted back no further than `i`. */
  function Backslashes(doc: string, i: nat, j: nat): (n: nat)
    requires i <= j <= |doc|
    ensures n <= j - i
    ensures forall k :: j - n <= k < j ==> doc[k] == '\\'
    ensures j - n == i || doc[j - n - 1] != '\\'
    decreases j - i
  {
    if j == i || doc[j - 1] != '\\' then 0 else 1 + Backslashes(doc, i, j - 1)
  }

  /** A quote at `j` closes a literal whose body starts at `i`: an even number of
      backslashes stands right before it (a backslash skips the character after it). */
  predicate ClosingQuote(doc: string, i: nat, j: nat, quote: char) {
    i <= j < |doc| && doc[j] == quote && Backslashes(doc, i, j) % 2 == 0
  }

  // Dropping a leading non-backslash, or a leading backslash with the character it skips,
  // keeps the parity of every later backslash run.
  lemma {:induction false} BackslashesShift(doc: string, i: nat, d: nat, j: nat)
    requires i + d <= j <= |doc| && (d == 1 || d == 2)
    requires d == 1 <==> doc[i] != '\\'
    ensures Backslashes(doc, i, j) % 2 == Backslashes(doc, i + d, j) % 2
    decreases j - i
  {
    if j > i + d && doc[j - 1] == '\\' {
      BackslashesShift(doc, i, d, j - 1);
    } else if j == i + 2 && doc[i + 1] == '\\' {
      assert Backslashes(doc, i, i + 1) == 1;
    }
  }

  /** `j` holds the first quote that closes a literal whose body starts at `i`. */
  predicate FirstClosingQuote(doc: string, i: nat, j: nat, quote: char) {
    ClosingQuote(doc, i, j, quote) && forall k: nat :: i <= k < j ==> !ClosingQuote(doc, i, k, quote)
  }

  // Past a character that is not the quote (and the one a backslash skips), the closing
  // quotes are the same.
  lemma ClosingShift(doc: string, i: nat, d: nat, quote: char)
    requires i + d <= |doc| && (d == 1 || d == 2) && doc[i] != quote
    requires quote == '\'' || quote == '"'
    requires d == 1 <==> doc[i] != '\\'
    ensures forall j: nat :: ClosingQuote(doc, i, j, quote) == ClosingQuote(doc, i + d, j, quote)
  {
    forall j: nat ensures ClosingQuote(doc, i, j, quote) == ClosingQuote(doc, i + d, j, quote) {
      if i + d <= j <= |doc| {
        BackslashesShift(doc, i, d, j);
      } else if j == i + 1 {
        assert Backslashes(doc, i, i + 1) == 1;
      }
    }
  }

  /** The literal ends just past the first quote that no backslash protects, or at the end of
      input when there is none. */
  lemma {:induction false} LiteralEndIsFirstClosingQuote(doc: string, i: nat, quote: char)
    requires i <= |doc| && (quote == '\'' || quote == '"')
    ensures forall j: nat :: FirstClosingQuote(doc, i, j, quote) ==> LiteralEnd(doc, i, quote) == j + 1
    ensures (forall j: nat :: !ClosingQuote(doc, i, j, quote)) ==> LiteralEnd(doc, i, quote) == |doc|
    decreases |doc| - i
  {
    if i < |doc| && doc[i] != quote {
      var d := if doc[i] == '\\' then 2 else 1;
      if i + d <= |doc| {
        var i' := i + d;
        LiteralEndIsFirstClosingQuote(doc, i', quote);
        ClosingShift(doc, i, d, quote);
        assert LiteralEnd(doc, i, quote) == LiteralEnd(doc, i', quote);
        forall j: nat | FirstClosingQuote(doc, i, j, quote)
          ensures FirstClosingQuote(doc, i', j, quote)
        {
          forall k: nat | i' <= k < j ensures !ClosingQuote(doc, i', k, quote) {
            assert !ClosingQuote(doc, i, k, quote);
          }
        }
        if forall j: nat :: !ClosingQuote(doc, i, j, quote) {
          forall j: nat ensures !ClosingQuote(doc, i', j, quote) {
            assert !ClosingQuote(doc, i, j, quote);
          }
        }
      }
    } else if i < |doc| {
      assert ClosingQuote(doc, i, i, quote) by {
        assert Backslashes(doc, i, i) == 0;
      }
      forall j: nat | FirstClosingQuote(doc, i, j, quote) ensures j == i {
      }
    }
  }

  /** A quote starts a STRING token; it is closed by the matching quote (included) or, when
      unterminated, runs to the end of input. */
  lemma LiteralToken(cc: CharClasses, keywords: seq<string>, doc: string, pos: nat)
    requires pos < |doc| && (doc[pos] == '\'' || doc[pos] == '"')
    ensures Lex(cc, keywords, doc, pos).kind == STRING
    ensures Lex(cc, keywords, doc, pos).end == |doc| || doc[Lex(cc, keywords, doc, pos).end - 1] == doc[pos]
    ensures (forall k :: pos < k < |doc| ==> doc[k] != doc[pos]) ==> Lex(cc, keywords, doc, pos).end == |doc|
    ensures var body := pos + 1;
      forall j: nat :: FirstClosingQuote(doc, body, j, doc[pos]) ==> Lex(cc, keywords, doc, pos).end == j + 1
    ensures var body := pos + 1;
      (forall j: nat :: !ClosingQuote(doc, body, j, doc[pos])) ==> Lex(cc, keywords, doc, pos).end == |doc|
  {
    LiteralEndIsFirstClosingQuote(doc, pos + 1, doc[pos]);
    if forall k :: pos < k < |doc| ==> doc[k] != doc[pos] {
      LiteralUnterminated(doc, pos + 1, doc[pos]);
    }
  }

  // `'a\'b'` is one literal: the backslash protects the quote after it. In `'a'b'` the
  // literal stops after the second quote.
  lemma ExampleEscapedQuote()
    ensures LiteralEnd("'a\\'b'", 1, '\'') == 6
    ensures LiteralEnd("'a'b'", 1, '\'') == 3
  {
  }

  /** A leading ASCII digit starts a maximal run of digits, classed NUMBER. */
  lemma NumberToken(cc: CharClasses, keywords: seq<string>, doc: string, pos: nat)
    requires pos < |doc| && '0' <= doc[pos] <= '9'
    ensures Lex(cc, keywords, doc, pos).kind == NUMBER
    ensures forall k :: pos < k < Lex(cc, keywords, doc, pos).end ==> cc.isDigit(doc[k] as int)
    ensures Lex(cc, keywords, doc, pos).end == |doc| || !cc.isDigit(doc[Lex(cc, keywords, doc, pos).end] as int)
  {
    RunEndIsMaximal(doc, pos + 1, cc.isDigit);
  }

  /** Characters the switch of nextToken does not handle by themselves. */
  predicate Unswitched(c: char) {
    c != '/' && c != '\'' && c != '"' && !('0' <= c <= '9')
  }

  /** A whitespace character starts a maximal run of whitespace, classed WHITE. */
  lemma WhiteToken(cc: CharClasses, keywords: seq<string>, doc: string, pos: nat)
    requires pos < |doc| && Unswitched(doc[pos]) && cc.isWhitespace(doc[pos] as int)
    ensures Lex(cc, keywords, doc, pos).kind == WHITE
    ensures forall k :: pos <= k < Lex(cc, keywords, doc, pos).end ==> cc.isWhitespace(doc[k] as int)
    ensures Lex(cc, keywords, doc, pos).end == |doc| || !cc.isWhitespace(doc[Lex(cc, keywords, doc, pos).end] as int)
  {
    RunEndIsMaximal(doc, pos + 1, cc.isWhitespace);
  }

  /** An identifier start begins a maximal identifier run, which is KEY exactly when its
      text is a keyword and WORD otherwise. */
  lemma IdentifierToken(cc: CharClasses, keywords: seq<string>, doc: string, pos: nat)
    requires pos < |doc| && Unswitched(doc[pos])
    requires !cc.isWhitespace(doc[pos] as int) && cc.isIdentifierStart(doc[pos] as int)
    ensures Lex(cc, keywords, doc, pos).kind == KEY || Lex(cc, keywords, doc, pos).kind == WORD
    ensures Lex(cc, keywords, doc, pos).kind == KEY <==> doc[pos..Lex(cc, keywords, doc, pos).end] in keywords
    ensures forall k :: pos < k < Lex(cc, keywords, doc, pos).end ==> cc.isIdentifierPart(doc[k] as int)
    ensures Lex(cc, keywords, doc, pos).end == |doc| || !cc.isIdentifierPart(doc[Lex(cc, keywords, doc, pos).end] as int)
  {
    RunEndIsMaximal(doc, pos + 1, cc.isIdentifierPart);
  }

  /** Any other character is a one-character OTHER token. */
  lemma OtherToken(cc: CharClasses, keywords: seq<string>, doc: string, pos: nat)
    requires pos < |doc| && Unswitched(doc[pos])
    requires !cc.isWhitespace(doc[pos] as int) && !cc.isIdentifierStart(doc[pos] as int)
    ensures Lex(cc, keywords, doc, pos) == Lexeme(OTHER, pos + 1)
  {
  }

  /** The scanner object: the document, the cursor with one-character pushback, the
      start of the current token and the buffer an identifier is collected in. */
  class JavaScanner {
    const cc: CharClasses
    const fgKeywords: seq<string>
    var fBuffer: string
    var fDoc: string
    var fEnd: int
    var fgKeys: map<string, int>
    var fPos: int
    var fStartToken: int

    /** The cursor stays within the document, and fEnd is its last index. */
    ghost predicate InRange()
      reads this
    {
      0 <= fPos <= |fDoc| && fEnd == |fDoc| - 1
    }

    ghost predicate Valid()
      reads this
    {
      InRange() && cc.ExcludesEof() && KeyTable(fgKeys, fgKeywords)
    }

    /** The scanner starts on an empty document with its keyword table built. */
    constructor (cc: CharClasses)
      requires cc.ExcludesEof()
      ensures Valid() && this.cc == cc && fgKeywords == KEYWORDS
      ensures fDoc == "" && fPos == 0 && fStartToken == 0 && fBuffer == ""
    {
      this.cc := cc;
      fgKeywords := KEYWORDS;
      fBuffer := "";
      fDoc := "";
      fEnd := -1;
      fgKeys := map[];
      fPos := 0;
      fStartToken := 0;
      new;
      Initialize();
    }

    /** Builds the keyword lookup table. */
    method Initialize()
      modifies this`fgKeys
      ensures KeyTable(fgKeys, fgKeywords)
    {
      fgKeys := map[];
      for i := 0 to |fgKeywords|
        invariant forall w :: w in fgKeys <==> w in fgKeywords[..i]
        invariant forall w :: w in fgKeys ==> fgKeys[w] == KEY
      {
        fgKeys := fgKeys[fgKeywords[i] := KEY];
      }
      assert fgKeywords[..|fgKeywords|] == fgKeywords;
    }

    /** Length of the current token. */
    function GetLength(): int
      reads this
    {
      fPos - fStartToken
    }

    /** Start offset of the current token. */
    function GetStartOffset(): int
      reads this
    {
      fStartToken
    }

    /** Points the scanner at the start of `text`. */
    method SetRange(text: string)
      requires Valid()
      modifies this`fDoc, this`fPos, this`fEnd
      ensures Valid() && fDoc == text && fPos == 0
    {
      fDoc := text;
      fPos := 0;
      fEnd := |fDoc| - 1;
    }

    /** `c` was read from position `k`: a character of the document, or EOF at the end. */
    ghost predicate LastRead(c: int, k: int)
      reads this
    {
      0 <= k <= |fDoc| &&
      if k < |fDoc| then c == fDoc[k] as int && fPos == k + 1 else c == EOF && fPos == k
    }

    /** Returns the next character, or EOF (repeatedly) once the document is exhausted. */
    method Read() returns (c: int)
      requires InRange()
      modifies this`fPos
      ensures InRange() && LastRead(c, old(fPos))
    {
      if fPos <= fEnd {
        c := fDoc[fPos] as int;
        fPos := fPos + 1;
      } else {
        c := EOF;
      }
    }

    /** Pushes back the character just read; pushing back EOF does nothing. */
    method Unread(c: int, ghost k: int)
      requires InRange() && LastRead(c, k)
      modifies this`fPos
      ensures InRange() && fPos == k
    {
      if c != EOF {
        fPos := fPos - 1;
      }
    }

    /** Returns the code of the next token; the token is [GetStartOffset(), fPos). */
    method NextToken() returns (token: int)
      requires Valid()
      modifies this`fPos, this`fStartToken, this`fBuffer
      ensures Valid() && fStartToken == old(fPos)
      ensures Lex(cc, fgKeywords, fDoc, old(fPos)) == Lexeme(token, fPos)
      ensures fBuffer == if token == KEY || token == WORD then fDoc[fStartToken..fPos] else old(fBuffer)
    {
      fStartToken := fPos;
      var c := Read();
      if c == EOF {
        token := EOF;
        return;
      }
      assert fStartToken < |fDoc| && c == fDoc[fStartToken] as int;
      if c == '/' as int {
        token := ScanSlash();
      } else if c == '\'' as int || c == '"' as int {
        ScanLiteral(c);
        token := STRING;
      } else if '0' as int <= c <= '9' as int {
        ScanRun(cc.isDigit);
        token := NUMBER;
      } else {
        token := ScanDefault(c);
      }
    }

    /** The default arm of nextToken's switch: whitespace run, identifier or keyword, or a
        one-character OTHER. */
    method ScanDefault(c: int) returns (token: int)
      requires Valid() && 0 <= fStartToken && fStartToken + 1 == fPos
      requires c == fDoc[fStartToken] as int && Unswitched(fDoc[fStartToken])
      modifies this`fPos, this`fBuffer
      ensures Valid()
      ensures Lex(cc, fgKeywords, fDoc, fStartToken) == Lexeme(token, fPos)
      ensures fBuffer == if token == KEY || token == WORD then fDoc[fStartToken..fPos] else old(fBuffer)
    {
      if cc.isWhitespace(c) {
        ScanRun(cc.isWhitespace);
        token := WHITE;
      } else if cc.isIdentifierStart(c) {
        ScanIdentifier(c, cc.isIdentifierPart);
        if fBuffer in fgKeys {
          token := fgKeys[fBuffer];
        } else {
          token := WORD;
        }
      } else {
        token := OTHER;
      }
    }

    /** The `/` arm of nextToken: a `//` comment up to the line feed, or a lone OTHER. */
    method ScanSlash() returns (token: int)
      requires InRange() && 0 <= fStartToken && fStartToken + 1 == fPos && fDoc[fStartToken] == '/'
      modifies this`fPos
      ensures InRange()
      ensures Lex(cc, fgKeywords, fDoc, fStartToken) == Lexeme(token, fPos)
    {
      ghost var k := fPos;
      var c := Read();
      if c != '/' as int {
        Unread(c, k);
        return OTHER;
      }
      while true
        invariant InRange() && fStartToken + 2 <= fPos && fDoc[fStartToken + 1] == '/'
        invariant LineEnd(fDoc, fStartToken + 2) == LineEnd(fDoc, fPos)
        decreases |fDoc| - fPos
      {
        k := fPos;
        c := Read();
        if c == EOF || c == EOL {
          Unread(c, k);
          return COMMENT;
        }
      }
    }

    /** The quote arm of nextToken: up to and including the matching quote, a backslash
        protecting the character after it, or up to the end of input. */
    method ScanLiteral(quote: int)
      requires InRange() && 0 <= fStartToken && fStartToken + 1 == fPos && quote == fDoc[fStartToken] as int
      modifies this`fPos
      ensures InRange()
      ensures fPos == LiteralEnd(fDoc, fStartToken + 1, fDoc[fStartToken])
    {
      ghost var doc, q := fDoc, fDoc[fStartToken];
      ghost var goal := LiteralEnd(doc, fStartToken + 1, q);
      while true
        invariant InRange() && fDoc == doc && fStartToken < fPos
        invariant goal == LiteralEnd(doc, fPos, q)
        decreases |doc| - fPos
      {
        ghost var k := fPos;
        var c := Read();
        if c == quote {
          return;
        } else if c == EOF {
          Unread(c, k);
          return;
        } else if c == '\\' as int {
          c := Read();
        }
      }
    }

    /** The digit and whitespace arms of nextToken: the rest of a maximal run of `p`. */
    method ScanRun(p: int -> bool)
      requires InRange() && 0 <= fStartToken && fStartToken + 1 == fPos && !p(EOF)
      modifies this`fPos
      ensures InRange()
      ensures fPos == RunEnd(fDoc, fStartToken + 1, p)
    {
      var c: int;
      ghost var k: int;
      ghost var doc := fDoc;
      ghost var goal := RunEnd(doc, fStartToken + 1, p);
      while true
        invariant InRange() && fDoc == doc && fStartToken < fPos
        invariant goal == RunEnd(doc, fPos, p)
        decreases |doc| - fPos
      {
        k := fPos;
        c := Read();
        if !p(c) {
          break;
        }
      }
      Unread(c, k);
    }

    /** The identifier arm of nextToken: collects a maximal identifier in fBuffer. The
        source's do-while (append, read, test) is rotated into append, then (read, test,
        append), which performs the same steps in the same order. */
    method ScanIdentifier(first: int, isPart: int -> bool)
      requires InRange() && 0 <= fStartToken && fStartToken + 1 == fPos && !isPart(EOF)
      requires first == fDoc[fStartToken] as int
      modifies this`fPos, this`fBuffer
      ensures InRange()
      ensures fPos == RunEnd(fDoc, fStartToken + 1, isPart)
      ensures fBuffer == fDoc[fStartToken..fPos]
    {
      var c := first;
      ghost var k: int;
      ghost var doc, st := fDoc, fStartToken;
      ghost var goal := RunEnd(doc, st + 1, isPart);
      fBuffer := "";
      fBuffer := fBuffer + [c as char];
      assert fBuffer == [doc[st]] == doc[st..fPos];
      while true
        invariant InRange() && fDoc == doc && fStartToken == st && st < fPos
        invariant goal == RunEnd(doc, fPos, isPart)
        invariant fBuffer == doc[st..fPos]
        decreases |doc| - fPos
      {
        k := fPos;
        c := Read();
        if !isPart(c) {
          break;
        }
        assert k < |doc| && c as char == doc[k];
        assert doc[st..k + 1] == doc[st..k] + [doc[k]];
        fBuffer := fBuffer + [c as char];
      }
      Unread(c, k);
    }
  }
}
