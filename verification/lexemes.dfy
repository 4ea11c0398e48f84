/** What one call of the scanner does with each kind of lexeme it meets. In every lemma
    `w` is where the lexeme starts: the first character from the lookahead on that is
    not whitespace. */
module Lexemes {
  import opened Chars
  import opened Source
  import opened Tokens
  import opened Scan

  /** The call skips the whitespace up to w and records the start column. */
  lemma NextAt(text: seq<char>, ops: set<string>, st: State, w: nat)
    requires Wf(text, st) && !st.atEOF
    requires w == FindFrom(text, st.cursor - 1, NonWhitespace) && w < |text|
    ensures Next(text, ops, st) ==
      Lexeme(text, ops, st.(cursor := w + 1, startPosition := ColumnAt(text, w), endPosition := ColumnAt(text, w) - 1), w)
  {
    assert Next(text, ops, st) == Skip(text, ops, st);
  }

  /** A lexeme that is neither an identifier nor a number goes to makeToken with the
      candidate the operator path builds. */
  lemma NextOperator(text: seq<char>, ops: set<string>, st: State, w: nat)
    requires Wf(text, st) && !st.atEOF
    requires w == FindFrom(text, st.cursor - 1, NonWhitespace) && w < |text|
    requires !IsIdentifierStart(text[w]) && !IsDigit(text[w])
    ensures var st1 := st.(cursor := w + 1, startPosition := ColumnAt(text, w), endPosition := ColumnAt(text, w) - 1);
      var (s, right, st2) := Candidate(text, ops, st1, w);
      Next(text, ops, st) == Make(text, ops, s, ColumnAt(text, w), right, st2)
  {
    NextAt(text, ops, st, w);
  }

  /** makeToken on a candidate that is neither a comment nor a quote: a table lookup. */
  lemma MakeLookup(text: seq<char>, ops: set<string>, s: string, left: int, right: int, st: State)
    requires Wf(text, st) && st.sourceOpen
    requires s != "//" && s != "'" && s != "\""
    ensures Make(text, ops, s, left, right, st) ==
      if s in ops then (st, Some(Token(left, right, Symbol(s, Operator), LineAt(text, st.cursor - 1))))
      else (st.(atEOF := true, sourceOpen := false, diagnostics := st.diagnostics + [s]), None)
  {
    if s !in ops {
      var st1 := st.(atEOF := true, diagnostics := st.diagnostics + [s]);
      assert Make(text, ops, s, left, right, st) == Next(text, ops, st1);
    }
  }

  /** Input that holds nothing but whitespace from the lookahead on ends the stream
      without a token and without a diagnostic. */
  lemma WhitespaceOnly(text: seq<char>, ops: set<string>, st: State)
    requires Wf(text, st) && !st.atEOF
    requires forall k | st.cursor - 1 <= k < |text| :: IsWhitespace(text[k])
    ensures Next(text, ops, st) == (st.(cursor := |text|, atEOF := true, sourceOpen := false), None)
  {
    assert FindFrom(text, st.cursor - 1, NonWhitespace) == |text|;
    var st1 := st.(cursor := |text|, atEOF := true);
    assert Next(text, ops, st) == Skip(text, ops, st) == Next(text, ops, st1);
  }

  /** A lexer over input made only of whitespace returns None at once. */
  lemma WhitespaceOnlyInput(text: seq<char>, ops: set<string>)
    requires |text| > 0 && forall k | 0 <= k < |text| :: IsWhitespace(text[k])
    ensures Next(text, ops, Initial()) == (Initial().(cursor := |text|, atEOF := true, sourceOpen := false), None)
  {
    WhitespaceOnly(text, ops, Initial());
  }

  /** An identifier or a number goes to the run loop of its kind. */
  lemma NextIsRun(text: seq<char>, ops: set<string>, st: State, w: nat, kind: Kind)
    requires Wf(text, st) && !st.atEOF
    requires w == FindFrom(text, st.cursor - 1, NonWhitespace) && w < |text|
    requires kind == Identifier || kind == INTeger
    requires if kind == Identifier then IsIdentifierStart(text[w]) else !IsIdentifierStart(text[w]) && IsDigit(text[w])
    ensures Next(text, ops, st) ==
      ScanRun(text, st.(cursor := w + 1, startPosition := ColumnAt(text, w), endPosition := ColumnAt(text, w) - 1), w, kind)
  {
    NextAt(text, ops, st, w);
  }

  /** An identifier or a number is the longest run of its class from w: the token holds
      exactly the characters up to the first one outside the class, its columns span its
      length, and that character stays as lookahead unless the input ran out. */
  lemma NextRun(text: seq<char>, ops: set<string>, st: State, w: nat, kind: Kind)
    requires Wf(text, st) && !st.atEOF
    requires w == FindFrom(text, st.cursor - 1, NonWhitespace) && w < |text|
    requires kind == Identifier || kind == INTeger
    requires if kind == Identifier then IsIdentifierStart(text[w]) else !IsIdentifierStart(text[w]) && IsDigit(text[w])
    ensures var res := Next(text, ops, st);
      var j := FindFrom(text, w + 1, if kind == Identifier then NonIdentifierPart else NonDigit);
      && res.1.Some?
      && res.1.value.symbol == Symbol(text[w..j], kind)
      && (forall i | w < i < j :: InRun(kind, text[i]))
      && (j == |text| || !InRun(kind, text[j]))
      && res.1.value.left == ColumnAt(text, w)
      && res.1.value.right - res.1.value.left + 1 == j - w
      && res.0.cursor == (if j < |text| then j + 1 else |text|)
      && res.0.atEOF == (j == |text|)
      && res.1.value.line == LineAt(text, res.0.cursor - 1)
  {
    var col: int := ColumnAt(text, w);
    var st1 := st.(cursor := w + 1, startPosition := col, endPosition := col - 1);
    NextIsRun(text, ops, st, w, kind);
    ScanRunMaximal(text, st1, w, kind);
  }

  /** Longest match: when the lookahead and the character after it form an operator
      of the table, both are consumed and make one token, and the character after them
      becomes the lookahead. */
  lemma TwoCharOperator(text: seq<char>, ops: set<string>, st: State, w: nat)
    requires Wf(text, st) && !st.atEOF
    requires w == FindFrom(text, st.cursor - 1, NonWhitespace) && w + 1 < |text|
    requires !IsIdentifierStart(text[w]) && !IsDigit(text[w])
    requires text[w..w + 2] in ops && text[w..w + 2] != "//"
    ensures var col := ColumnAt(text, w);
      var cursor := if w + 2 < |text| then w + 3 else |text|;
      Next(text, ops, st) ==
        (st.(cursor := cursor, atEOF := w + 2 == |text|, startPosition := col, endPosition := col + 1),
         Some(Token(col, col + 1, Symbol(text[w..w + 2], Operator), LineAt(text, cursor - 1))))
  {
    var col: int := ColumnAt(text, w);
    var op := text[w..w + 2];
    var st1 := st.(cursor := w + 1, startPosition := col, endPosition := col - 1);
    assert [text[w]] + [text[w + 1]] == op;
    var cursor := if w + 2 < |text| then w + 3 else |text|;
    var st2 := st1.(endPosition := col + 1, cursor := cursor, atEOF := w + 2 == |text|);
    assert Candidate(text, ops, st1, w) == (op, col + 1, st2);
    NextOperator(text, ops, st, w);
    assert Next(text, ops, st) == Make(text, ops, op, col, col + 1, st2);
    assert |op| == 2;
    MakeLookup(text, ops, op, col, col + 1, st2);
  }

  /** A single character of the table makes a token of its own when it does not pair
      with the next one, and also when it is the last character of the input, which
      sets atEOF. Quotes are excluded: they start literals. */
  lemma OneCharOperator(text: seq<char>, ops: set<string>, st: State, w: nat)
    requires Wf(text, st) && !st.atEOF
    requires w == FindFrom(text, st.cursor - 1, NonWhitespace) && w < |text|
    requires !IsIdentifierStart(text[w]) && !IsDigit(text[w]) && text[w] != '\'' && text[w] != '"'
    requires [text[w]] in ops
    requires w + 1 == |text| || text[w..w + 2] !in ops
    ensures var col := ColumnAt(text, w);
      var cursor := if w + 1 < |text| then w + 2 else |text|;
      Next(text, ops, st) ==
        (st.(cursor := cursor, atEOF := w + 1 == |text|, startPosition := col, endPosition := col),
         Some(Token(col, col, Symbol([text[w]], Operator), LineAt(text, cursor - 1))))
  {
    SingleCandidate(text, ops, st, w);
  }

  /** A lookahead that is neither a letter nor a digit, and that does not pair with the
      next character into an operator of the table or is the last character, goes to
      makeToken alone, with the character after it as the new lookahead. */
  lemma LoneCandidate(text: seq<char>, ops: set<string>, st: State, w: nat)
    requires Wf(text, st) && !st.atEOF
    requires w == FindFrom(text, st.cursor - 1, NonWhitespace) && w < |text|
    requires !IsIdentifierStart(text[w]) && !IsDigit(text[w])
    requires w + 1 == |text| || text[w..w + 2] !in ops
    ensures var col := ColumnAt(text, w);
      var st2 := st.(cursor := if w + 1 < |text| then w + 2 else |text|, atEOF := w + 1 == |text|,
                     startPosition := col, endPosition := col);
      Next(text, ops, st) == Make(text, ops, [text[w]], col, col, st2)
  {
    var col: int := ColumnAt(text, w);
    var st1 := st.(cursor := w + 1, startPosition := col, endPosition := col - 1);
    var st2 := st.(cursor := if w + 1 < |text| then w + 2 else |text|, atEOF := w + 1 == |text|,
                   startPosition := col, endPosition := col);
    if w + 1 < |text| {
      assert [text[w]] + [text[w + 1]] == text[w..w + 2];
    }
    assert Candidate(text, ops, st1, w) == ([text[w]], col, st2);
    NextOperator(text, ops, st, w);
  }

  /** A lookahead that does not pair with the next character, or is the last one,
      goes to makeToken alone. */
  lemma SingleCandidate(text: seq<char>, ops: set<string>, st: State, w: nat)
    requires Wf(text, st) && !st.atEOF
    requires w == FindFrom(text, st.cursor - 1, NonWhitespace) && w < |text|
    requires !IsIdentifierStart(text[w]) && !IsDigit(text[w]) && text[w] != '\'' && text[w] != '"'
    requires w + 1 == |text| || text[w..w + 2] !in ops
    ensures var col := ColumnAt(text, w);
      var st2 := st.(cursor := if w + 1 < |text| then w + 2 else |text|, atEOF := w + 1 == |text|,
                     startPosition := col, endPosition := col);
      && Next(text, ops, st) == Make(text, ops, [text[w]], col, col, st2)
      && Make(text, ops, [text[w]], col, col, st2) ==
           if [text[w]] in ops then (st2, Some(Token(col, col, Symbol([text[w]], Operator), LineAt(text, st2.cursor - 1))))
           else (st2.(atEOF := true, sourceOpen := false, diagnostics := st.diagnostics + [[text[w]]]), None)
  {
    var col: int := ColumnAt(text, w);
    var st2 := st.(cursor := if w + 1 < |text| then w + 2 else |text|, atEOF := w + 1 == |text|,
                   startPosition := col, endPosition := col);
    LoneCandidate(text, ops, st, w);
    MakeLookup(text, ops, [text[w]], col, col, st2);
  }

  /** A character that starts no lexeme and is not in the table is logged as illegal;
      the call sets atEOF, closes the source and returns None. */
  lemma IllegalCharacter(text: seq<char>, ops: set<string>, st: State, w: nat)
    requires Wf(text, st) && !st.atEOF
    requires w == FindFrom(text, st.cursor - 1, NonWhitespace) && w < |text|
    requires !IsIdentifierStart(text[w]) && !IsDigit(text[w]) && text[w] != '\'' && text[w] != '"'
    requires [text[w]] !in ops
    requires w + 1 == |text| || text[w..w + 2] !in ops
    ensures var col := ColumnAt(text, w);
      Next(text, ops, st) ==
        (st.(cursor := if w + 1 < |text| then w + 2 else |text|, atEOF := true, sourceOpen := false,
             startPosition := col, endPosition := col, diagnostics := st.diagnostics + [[text[w]]]),
         None)
  {
    SingleCandidate(text, ops, st, w);
    var col: int := ColumnAt(text, w);
    var st2 := st.(cursor := if w + 1 < |text| then w + 2 else |text|, atEOF := w + 1 == |text|,
                   startPosition := col, endPosition := col);
    assert Next(text, ops, st) == Make(text, ops, [text[w]], col, col, st2);
  }

  /** A line comment makes no token: the call goes on from the character after the
      next line feed, or ends the stream when there is none, also when the comment
      marker is the end of the input. */
  lemma LineComment(text: seq<char>, ops: set<string>, st: State, w: nat)
    requires Wf(text, st) && !st.atEOF
    requires w == FindFrom(text, st.cursor - 1, NonWhitespace) && w + 2 <= |text|
    requires text[w..w + 2] == "//" && "//" in ops
    ensures var col := ColumnAt(text, w);
      var nl := FindFrom(text, w + 2, Char('\n'));
      Next(text, ops, st) ==
        Next(text, ops, st.(cursor := if nl + 1 < |text| then nl + 2 else |text|, atEOF := nl + 1 >= |text|,
                            startPosition := col, endPosition := col + 1))
  {
    assert text[w] == '/';
    NextOperator(text, ops, st, w);
    assert [text[w]] + [text[w + 1]] == text[w..w + 2];
  }

  /** A comment with no line feed after it runs to the end of input: the call returns
      None. */
  lemma CommentToEnd(text: seq<char>, ops: set<string>, st: State, w: nat)
    requires Wf(text, st) && !st.atEOF
    requires w == FindFrom(text, st.cursor - 1, NonWhitespace) && w + 2 <= |text|
    requires text[w..w + 2] == "//" && "//" in ops
    requires forall k | w + 2 <= k < |text| :: text[k] != '\n'
    ensures Next(text, ops, st).1 == None
  {
    LineComment(text, ops, st, w);
    assert FindFrom(text, w + 2, Char('\n')) == |text|;
  }

  /** With its mark set, a quote that does not pair with the next character into an
      operator is swallowed: the call goes on after it. This is how the closing quote
      of a literal is dropped; the marks are never cleared, so it applies to every
      later quote of the same kind as well. */
  lemma QuoteSwallowed(text: seq<char>, ops: set<string>, st: State, w: nat)
    requires Wf(text, st) && !st.atEOF
    requires w == FindFrom(text, st.cursor - 1, NonWhitespace) && w < |text|
    requires (text[w] == '"' && st.stringMark) || (text[w] == '\'' && st.charMark)
    requires w + 1 == |text| || text[w..w + 2] !in ops
    ensures var col := ColumnAt(text, w);
      Next(text, ops, st) ==
        Next(text, ops, st.(cursor := if w + 1 < |text| then w + 2 else |text|, atEOF := w + 1 == |text|,
                            startPosition := col, endPosition := col))
  {
    var col: int := ColumnAt(text, w);
    var st2 := st.(cursor := if w + 1 < |text| then w + 2 else |text|, atEOF := w + 1 == |text|,
                   startPosition := col, endPosition := col);
    LoneCandidate(text, ops, st, w);
    if text[w] == '"' {
      assert [text[w]] == "\"";
    } else {
      assert [text[w]] == "'";
    }
    assert Make(text, ops, [text[w]], col, col, st2) == Next(text, ops, st2);
  }

  /** The character-literal branch of makeToken, case by case. */
  lemma CharLiteralCases(text: seq<char>, ops: set<string>, left: int, right: int, st: State)
    requires Wf(text, st) && st.sourceOpen
    requires st.atEOF ==> st.cursor == |text|
    ensures var c := st.cursor;
      var q := FindFrom(text, c, Char('\''));
      var tk := "'" + text[c - 1..q] + "'";
      var st1 := st.(charMark := true, cursor := if q < |text| then q + 1 else |text|, atEOF := q == |text|);
      CharLiteral(text, ops, left, right, st) ==
        if |tk| == 3 then (st1, Some(Token(left, right + (q - c), Symbol(tk, CharLit), LineAt(text, st1.cursor - 1))))
        else (st1.(atEOF := true, sourceOpen := false, diagnostics := st.diagnostics + [tk]), None)
  {
    var c := st.cursor;
    var q := FindFrom(text, c, Char('\''));
    var tk := "'" + text[c - 1..q] + "'";
    var st1 := st.(charMark := true, cursor := if q < |text| then q + 1 else |text|, atEOF := q == |text|);
    if |tk| != 3 {
      assert CharLiteral(text, ops, left, right, st) ==
        Next(text, ops, st1.(atEOF := true, diagnostics := st.diagnostics + [tk]));
    }
  }

  /** A character literal: the text from the opening quote's successor up to the next
      single quote is taken, and the closing quote is appended whether or not one was
      found. The result is a token exactly when that makes three characters; its last
      column is one per character taken after the first. Anything else is logged and
      ends the stream. */
  lemma CharLiteralAt(text: seq<char>, ops: set<string>, st: State, w: nat)
    requires Wf(text, st) && !st.atEOF
    requires w == FindFrom(text, st.cursor - 1, NonWhitespace) && w < |text|
    requires text[w] == '\'' && !st.charMark
    requires w + 1 == |text| || text[w..w + 2] !in ops
    ensures var col := ColumnAt(text, w);
      var c := if w + 1 < |text| then w + 2 else |text|;
      var q := FindFrom(text, c, Char('\''));
      var tk := "'" + text[c - 1..q] + "'";
      var st3 := st.(charMark := true, cursor := if q < |text| then q + 1 else |text|, atEOF := q == |text|,
                     startPosition := col, endPosition := col);
      && (Next(text, ops, st).1.Some? <==> |tk| == 3)
      && (|tk| == 3 ==>
            Next(text, ops, st) == (st3, Some(Token(col, col + (q - c), Symbol(tk, CharLit), LineAt(text, st3.cursor - 1)))))
      && (|tk| != 3 ==>
            Next(text, ops, st) == (st3.(atEOF := true, sourceOpen := false, diagnostics := st.diagnostics + [tk]), None))
  {
    var col: int := ColumnAt(text, w);
    var st2 := st.(cursor := if w + 1 < |text| then w + 2 else |text|, atEOF := w + 1 == |text|,
                   startPosition := col, endPosition := col);
    LoneCandidate(text, ops, st, w);
    assert [text[w]] == "'";
    assert Make(text, ops, [text[w]], col, col, st2) == CharLiteral(text, ops, col, col, st2);
    CharLiteralCases(text, ops, col, col, st2);
    assert Next(text, ops, st) == CharLiteral(text, ops, col, col, st2);
  }

  /** The string-literal branch of makeToken, case by case. */
  lemma StringLiteralCases(text: seq<char>, ops: set<string>, left: int, right: int, st: State)
    requires Wf(text, st) && st.sourceOpen
    requires st.atEOF ==> st.cursor == |text|
    ensures var c := st.cursor;
      var q := FindFrom(text, c, Char('"'));
      var tk := "\"" + text[c - 1..q];
      var st1 := st.(stringMark := true, cursor := if q < |text| then q + 1 else |text|, atEOF := q == |text|);
      StringLiteral(text, ops, left, right, st) ==
        if q < |text| then (st1, Some(Token(left, right + (q - c), Symbol(tk + "\"", StringLit), LineAt(text, q))))
        else (st1.(atEOF := true, sourceOpen := false, diagnostics := st.diagnostics + [tk]), None)
  {
    var c := st.cursor;
    var q := FindFrom(text, c, Char('"'));
    var tk := "\"" + text[c - 1..q];
    var st1 := st.(stringMark := true, cursor := if q < |text| then q + 1 else |text|, atEOF := q == |text|);
    if q == |text| {
      assert StringLiteral(text, ops, left, right, st) ==
        Next(text, ops, st1.(atEOF := true, diagnostics := st.diagnostics + [tk]));
    }
  }

  /** A string literal: the text from the opening quote's successor up to the next
      double quote is taken and the closing quote appended; that quote is the new
      lookahead and the token's last column is one per character taken after the first.
      Without a closing quote the text is logged and the stream ends. */
  lemma StringLiteralAt(text: seq<char>, ops: set<string>, st: State, w: nat)
    requires Wf(text, st) && !st.atEOF
    requires w == FindFrom(text, st.cursor - 1, NonWhitespace) && w < |text|
    requires text[w] == '"' && !st.stringMark
    requires w + 1 == |text| || text[w..w + 2] !in ops
    ensures var col := ColumnAt(text, w);
      var c := if w + 1 < |text| then w + 2 else |text|;
      var q := FindFrom(text, c, Char('"'));
      var tk := "\"" + text[c - 1..q];
      && (Next(text, ops, st).1.Some? <==> q < |text|)
      && (q < |text| ==>
            Next(text, ops, st) ==
              (st.(stringMark := true, cursor := q + 1, atEOF := false, startPosition := col, endPosition := col),
               Some(Token(col, col + (q - c), Symbol(tk + "\"", StringLit), LineAt(text, q)))))
      && (q == |text| ==>
            Next(text, ops, st) ==
              (st.(stringMark := true, cursor := |text|, atEOF := true, sourceOpen := false,
                   startPosition := col, endPosition := col, diagnostics := st.diagnostics + [tk]),
               None))
  {
    var col: int := ColumnAt(text, w);
    var st2 := st.(cursor := if w + 1 < |text| then w + 2 else |text|, atEOF := w + 1 == |text|,
                   startPosition := col, endPosition := col);
    LoneCandidate(text, ops, st, w);
    assert [text[w]] == "\"";
    assert Make(text, ops, [text[w]], col, col, st2) == StringLiteral(text, ops, col, col, st2);
    StringLiteralCases(text, ops, col, col, st2);
  }

  /** Input `"abc"` gives one string-literal token whose text keeps both quotes; the
      closing quote stays as lookahead. */
  lemma StringExample(ops: set<string>)
    requires "\"a" !in ops
    ensures Next("\"abc\"", ops, Initial()) ==
      (State(5, false, true, 0, 0, true, false, []), Some(Token(0, 2, Symbol("\"abc\"", StringLit), 1)))
  {
    var text := "\"abc\"";
    assert text[0..2] == "\"a";
    assert FindFrom(text, 0, NonWhitespace) == 0;
    assert FindFrom(text, 2, Char('"')) == 4;
    StringLiteralAt(text, ops, Initial(), 0);
    assert ColumnAt(text, 0) == 0;
    assert LineAt(text, 4) == 1;
    assert "\"" + text[1..4] + "\"" == "\"abc\"";
  }

  /** Input `"abc` with no closing quote logs `"abc`, ends the stream and gives no
      token. */
  lemma UnterminatedStringExample(ops: set<string>)
    requires "\"a" !in ops
    ensures Next("\"abc", ops, Initial()) ==
      (State(4, true, false, 0, 0, true, false, ["\"abc"]), None)
  {
    var text := "\"abc";
    assert text[0..2] == "\"a";
    assert FindFrom(text, 0, NonWhitespace) == 0;
    assert FindFrom(text, 2, Char('"')) == 4;
    StringLiteralAt(text, ops, Initial(), 0);
    assert ColumnAt(text, 0) == 0;
    assert "\"" + text[1..4] == "\"abc";
    assert Initial().diagnostics + ["\"abc"] == ["\"abc"];
  }

  /** Input `""` is not an empty string: the character after the opening quote is
      taken whatever it is, so the second quote becomes content and the literal is
      unterminated. */
  lemma EmptyStringExample(ops: set<string>)
    requires "\"\"" !in ops
    ensures Next("\"\"", ops, Initial()) ==
      (State(2, true, false, 0, 0, true, false, ["\"\""]), None)
  {
    var text := "\"\"";
    assert text[0..2] == "\"\"";
    assert FindFrom(text, 0, NonWhitespace) == 0;
    assert FindFrom(text, 2, Char('"')) == 2;
    StringLiteralAt(text, ops, Initial(), 0);
    assert ColumnAt(text, 0) == 0;
    assert "\"" + text[1..2] == "\"\"";
    assert Initial().diagnostics + ["\"\""] == ["\"\""];
  }

  /** The character after the opening quote is always content, so in `"""` the second
      quote is inside the literal and the third closes it. */
  lemma TripleQuoteExample(ops: set<string>)
    requires "\"\"" !in ops
    ensures Next("\"\"\"", ops, Initial()) ==
      (State(3, false, true, 0, 0, true, false, []), Some(Token(0, 0, Symbol("\"\"\"", StringLit), 1)))
  {
    var text := "\"\"\"";
    assert text[0..2] == "\"\"";
    assert FindFrom(text, 0, NonWhitespace) == 0;
    assert FindFrom(text, 2, Char('"')) == 2;
    StringLiteralAt(text, ops, Initial(), 0);
    assert ColumnAt(text, 0) == 0;
    assert LineAt(text, 2) == 1;
    assert "\"" + text[1..2] + "\"" == "\"\"\"";
  }

  /** Input `'a'` gives the character literal `'a'`; the next call swallows the closing
      quote and, the input being spent, ends the stream without a diagnostic. */
  lemma CharExample(ops: set<string>)
    requires "'a" !in ops
    ensures var res := Next("'a'", ops, Initial());
      && res == (State(3, false, true, 0, 0, false, true, []), Some(Token(0, 0, Symbol("'a'", CharLit), 1)))
      && Next("'a'", ops, res.0) == (State(3, true, false, 2, 2, false, true, []), None)
  {
    var text := "'a'";
    assert text[0..2] == "'a";
    assert FindFrom(text, 0, NonWhitespace) == 0;
    assert FindFrom(text, 2, Char('\'')) == 2;
    CharLiteralAt(text, ops, Initial(), 0);
    assert ColumnAt(text, 0) == 0;
    assert LineAt(text, 2) == 1;
    assert "'" + text[1..2] + "'" == "'a'";
    var st := State(3, false, true, 0, 0, false, true, []);
    assert FindFrom(text, 2, NonWhitespace) == 2;
    assert ColumnAt(text, 2) == 2;
    QuoteSwallowed(text, ops, st, 2);
    var st2 := State(3, true, true, 2, 2, false, true, []);
    assert Next(text, ops, st2) == (st2.(sourceOpen := false), None);
  }

  /** A single quote that is the last character of the input still makes a character
      literal: the quote itself is taken as its character and the closing quote is
      appended, giving `'''`. */
  lemma LoneQuoteExample(ops: set<string>)
    ensures Next("'", ops, Initial()) ==
      (State(1, true, true, 0, 0, false, true, []), Some(Token(0, 0, Symbol("'''", CharLit), 1)))
  {
    var text := "'";
    assert FindFrom(text, 0, NonWhitespace) == 0;
    assert FindFrom(text, 1, Char('\'')) == 1;
    CharLiteralAt(text, ops, Initial(), 0);
    assert ColumnAt(text, 0) == 0;
    assert LineAt(text, 0) == 1;
    assert "'" + text[0..1] + "'" == "'''";
  }

  /** Input `'ab'` holds two characters between the quotes: it is logged as `'ab'` and
      ends the stream. */
  lemma LongCharExample(ops: set<string>)
    requires "'a" !in ops
    ensures Next("'ab'", ops, Initial()) ==
      (State(4, true, false, 0, 0, false, true, ["'ab'"]), None)
  {
    var text := "'ab'";
    assert text[0..2] == "'a";
    assert FindFrom(text, 0, NonWhitespace) == 0;
    assert FindFrom(text, 2, Char('\'')) == 3;
    CharLiteralAt(text, ops, Initial(), 0);
    assert ColumnAt(text, 0) == 0;
    assert "'" + text[1..3] + "'" == "'ab'";
    assert Initial().diagnostics + ["'ab'"] == ["'ab'"];
  }

  /** Input `<=` with `<=` in the table gives the one token `<=`, not `<` and `=`. */
  lemma LessEqualExample(ops: set<string>)
    requires "<=" in ops
    ensures Next("<=", ops, Initial()) ==
      (State(2, true, true, 0, 1, false, false, []), Some(Token(0, 1, Symbol("<=", Operator), 1)))
  {
    var text := "<=";
    assert text[0..2] == "<=";
    assert FindFrom(text, 0, NonWhitespace) == 0;
    TwoCharOperator(text, ops, Initial(), 0);
    assert ColumnAt(text, 0) == 0;
    assert LineAt(text, 1) == 1;
  }

  /** Input `+5` with `+` but not `+5` in the table gives the token `+`, then the
      number `5`, then end of stream. */
  lemma PlusFiveExample(ops: set<string>)
    requires "+" in ops && "+5" !in ops
    ensures var res1 := Next("+5", ops, Initial());
      var res2 := Next("+5", ops, res1.0);
      && res1.1 == Some(Token(0, 0, Symbol("+", Operator), 1))
      && res2.1 == Some(Token(1, 1, Symbol("5", INTeger), 1))
      && Next("+5", ops, res2.0).1 == None
  {
    var text := "+5";
    assert text[0..2] == "+5";
    assert [text[0]] == "+";
    assert FindFrom(text, 0, NonWhitespace) == 0;
    OneCharOperator(text, ops, Initial(), 0);
    assert ColumnAt(text, 0) == 0;
    assert LineAt(text, 1) == 1;
    var st := State(2, false, true, 0, 0, false, false, []);
    assert FindFrom(text, 1, NonWhitespace) == 1;
    assert FindFrom(text, 2, NonDigit) == 2;
    NextRun(text, ops, st, 1, INTeger);
    assert ColumnAt(text, 1) == 1;
    assert text[1..2] == "5";
  }

  /** Input `// ignored` followed by a line feed and `42` gives the number `42` on
      line 2 and then end of stream: the comment gives no token. */
  lemma CommentExample(ops: set<string>)
    requires "//" in ops
    ensures var res := Next("// ignored\n42", ops, Initial());
      && res.1 == Some(Token(0, 1, Symbol("42", INTeger), 2))
      && Next("// ignored\n42", ops, res.0).1 == None
  {
    var text := "// ignored\n42";
    assert text[0..2] == "//";
    assert FindFrom(text, 0, NonWhitespace) == 0;
    LineComment(text, ops, Initial(), 0);
    assert ColumnAt(text, 0) == 0;
    var st := State(12, false, true, 0, 1, false, false, []);
    assert FindFrom(text, 11, NonWhitespace) == 11;
    assert FindFrom(text, 12, NonDigit) == 13;
    NextRun(text, ops, st, 11, INTeger);
    CommentExampleLines();
    assert text[11..13] == "42";
  }

  /** Where the line feed of the comment example is, and the line and column of what
      follows it. */
  lemma CommentExampleLines()
    ensures FindFrom("// ignored\n42", 2, Char('\n')) == 10
    ensures ColumnAt("// ignored\n42", 11) == 0
    ensures LineAt("// ignored\n42", 12) == 2
  {
    var text := "// ignored\n42";
    assert text[10] == '\n';
    assert NewlinesBefore(text, 10) == 0;
    assert NewlinesBefore(text, 12) == 1;
  }

  /** Input `007` gives one number token whose text keeps the leading zeros. */
  lemma LeadingZerosExample(ops: set<string>)
    ensures var res := Next("007", ops, Initial());
      && res.1 == Some(Token(0, 2, Symbol("007", INTeger), 1))
      && Next("007", ops, res.0).1 == None
  {
    var text := "007";
    assert FindFrom(text, 0, NonWhitespace) == 0;
    assert FindFrom(text, 1, NonDigit) == 3;
    NextRun(text, ops, Initial(), 0, INTeger);
    assert ColumnAt(text, 0) == 0;
    assert LineAt(text, 2) == 1;
    assert text[0..3] == "007";
  }

  /** The marks are never cleared, so only the first character literal of an input is
      recognised: in `'a' 'b'` the second call swallows the closing quote of `'a'` and
      the opening quote of `'b'` and returns the identifier `b`; the third call swallows
      the last quote and ends the stream. */
  lemma SecondCharLiteralExample(ops: set<string>)
    requires "'a" !in ops && "' " !in ops && "'b" !in ops
    ensures var res1 := Next("'a' 'b'", ops, Initial());
      var res2 := Next("'a' 'b'", ops, res1.0);
      && res1.1 == Some(Token(0, 0, Symbol("'a'", CharLit), 1))
      && res2.1 == Some(Token(5, 5, Symbol("b", Identifier), 1))
      && Next("'a' 'b'", ops, res2.0).1 == None
  {
    var text := "'a' 'b'";
    SecondCharLiteralText();
    CharLiteralAt(text, ops, Initial(), 0);
    var st1 := State(3, false, true, 0, 0, false, true, []);
    QuoteSwallowed(text, ops, st1, 2);
    var st2 := State(4, false, true, 2, 2, false, true, []);
    QuoteSwallowed(text, ops, st2, 4);
    var st3 := State(6, false, true, 4, 4, false, true, []);
    NextRun(text, ops, st3, 5, Identifier);
    var st4 := State(7, false, true, 5, 5, false, true, []);
    assert FindFrom(text, 6, NonWhitespace) == 6;
    QuoteSwallowed(text, ops, st4, 6);
  }

  /** Where the lexemes of `'a' 'b'` start, and their columns and lines. */
  lemma SecondCharLiteralText()
    ensures var text := "'a' 'b'";
      && text[0..2] == "'a" && text[2..4] == "' " && text[4..6] == "'b"
      && FindFrom(text, 0, NonWhitespace) == 0 && FindFrom(text, 2, Char('\'')) == 2
      && FindFrom(text, 2, NonWhitespace) == 2 && FindFrom(text, 3, NonWhitespace) == 4
      && FindFrom(text, 5, NonWhitespace) == 5 && FindFrom(text, 6, NonIdentifierPart) == 6
      && ColumnAt(text, 0) == 0 && ColumnAt(text, 2) == 2 && ColumnAt(text, 4) == 4 && ColumnAt(text, 5) == 5
      && LineAt(text, 2) == 1 && LineAt(text, 6) == 1
      && "'" + text[1..2] + "'" == "'a'" && text[5..6] == "b"
  {
    var text := "'a' 'b'";
    assert text[0..2] == "'a" && text[2..4] == "' " && text[4..6] == "'b";
    assert FindFrom(text, 3, NonWhitespace) == 4;
    assert ColumnAt(text, 5) == 5;
    assert LineAt(text, 6) == 1;
    assert "'" + text[1..2] + "'" == "'a'";
  }
}
