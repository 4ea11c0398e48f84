/** One call of the scanner as a function of its state: what `nextToken` and `makeToken`
    return and how they leave the scanner's fields. The two functions recurse into each
    other exactly where the source does: after a comment, after a swallowed closing quote
    and after a diagnostic. */
module Scan {
  import opened Chars
  import opened Source
  import opened Tokens

  /** The scanner's fields. The lookahead character is not stored: it is always
      text[cursor - 1], the most recently read character. `sourceOpen` is false once the
      source has been closed and dropped. `diagnostics` logs the text of every
      "illegal character" message. */
  datatype State = State(
    cursor: nat,
    atEOF: bool,
    sourceOpen: bool,
    startPosition: int,
    endPosition: int,
    stringMark: bool,
    charMark: bool,
    diagnostics: seq<string>)

  /** A lookahead has been read, the cursor is within the text, and the source is only
      ever closed at end of stream. */
  predicate Wf(text: seq<char>, st: State)
  {
    1 <= st.cursor <= |text| && (!st.sourceOpen ==> st.atEOF)
  }

  /** The state the constructor leaves: the first character read as lookahead. */
  function Initial(): (st: State)
  {
    State(1, false, true, 0, 0, false, false, [])
  }

  /** The class a run of the given kind continues with. */
  predicate InRun(kind: Kind, c: char)
  {
    if kind == Identifier then IsIdentifierPart(c) else IsDigit(c)
  }

  /** nextToken: at end of stream, close the source and return None; otherwise scan. */
  function Next(text: seq<char>, ops: set<string>, st: State): (res: (State, Option<Token>))
    requires Wf(text, st)
    ensures Wf(text, res.0)
    decreases if st.atEOF then 0 else 1, |text| - st.cursor, 4
  {
    if st.atEOF then (st.(sourceOpen := false), None)
    else Skip(text, ops, st)
  }

  /** The rest of nextToken before end of stream: skip whitespace, which at end of input
      sets atEOF and starts over; otherwise record the start column and scan a lexeme
      from the lookahead. */
  function Skip(text: seq<char>, ops: set<string>, st: State): (res: (State, Option<Token>))
    requires Wf(text, st) && !st.atEOF
    ensures Wf(text, res.0)
    decreases 1, |text| - st.cursor, 3
  {
    var w := FindFrom(text, st.cursor - 1, NonWhitespace);
    if w == |text| then Next(text, ops, st.(cursor := |text|, atEOF := true))
    else
      var start := ColumnAt(text, w);
      Lexeme(text, ops, st.(cursor := w + 1, startPosition := start, endPosition := start - 1), w)
  }

  /** The rest of nextToken once the lookahead at w is not whitespace and the start
      column is recorded: an identifier, a number, or the operator path. */
  function Lexeme(text: seq<char>, ops: set<string>, st: State, w: nat): (res: (State, Option<Token>))
    requires Wf(text, st) && !st.atEOF && w < |text| && st.cursor == w + 1
    ensures Wf(text, res.0)
    decreases 1, |text| - st.cursor, 2
  {
    if IsIdentifierStart(text[w]) then ScanRun(text, st, w, Identifier)
    else if IsDigit(text[w]) then ScanRun(text, st, w, INTeger)
    else ScanOperator(text, ops, st, w)
  }

  /** The identifier and number loops: the lookahead at index w starts the run; the run
      takes every following character of the class and stops at the first one outside
      it or at end of input, which sets atEOF. The text is kept as it is. */
  function ScanRun(text: seq<char>, st: State, w: nat, kind: Kind): (res: (State, Option<Token>))
    requires Wf(text, st) && !st.atEOF && w < |text| && st.cursor == w + 1
    requires kind == Identifier || kind == INTeger
    requires kind == Identifier ==> IsIdentifierStart(text[w])
    requires kind == INTeger ==> IsDigit(text[w])
    ensures Wf(text, res.0) && res.1.Some?
  {
    var j := FindFrom(text, w + 1, if kind == Identifier then NonIdentifierPart else NonDigit);
    var cursor := if j < |text| then j + 1 else |text|;
    var st1 := st.(cursor := cursor, atEOF := j == |text|, endPosition := st.startPosition + (j - w) - 1);
    (st1, Some(Token(st.startPosition, st1.endPosition, Symbol(text[w..j], kind), LineAt(text, cursor - 1))))
  }

  /** A run is maximal: it is the text from w up to the first character outside the
      class, its columns span exactly its length, and the stop character stays as
      lookahead unless the input ran out. */
  lemma ScanRunMaximal(text: seq<char>, st: State, w: nat, kind: Kind)
    requires Wf(text, st) && !st.atEOF && w < |text| && st.cursor == w + 1
    requires kind == Identifier || kind == INTeger
    requires kind == Identifier ==> IsIdentifierStart(text[w])
    requires kind == INTeger ==> IsDigit(text[w])
    ensures ScanRun(text, st, w, kind).1.Some?
    ensures var res := ScanRun(text, st, w, kind);
      var t := res.1.value;
      var j := FindFrom(text, w + 1, if kind == Identifier then NonIdentifierPart else NonDigit);
      && t.symbol == Symbol(text[w..j], kind)
      && (forall i | w < i < j :: InRun(kind, text[i]))
      && (j == |text| || !InRun(kind, text[j]))
      && t.left == st.startPosition
      && t.right - t.left + 1 == j - w
      && res.0.endPosition == t.right
      && res.0.atEOF == (j == |text|)
      && res.0.cursor == (if j < |text| then j + 1 else |text|)
      && t.line == LineAt(text, res.0.cursor - 1)
      && res.0 == st.(cursor := res.0.cursor, atEOF := res.0.atEOF, endPosition := t.right)
  {
    var u := if kind == Identifier then NonIdentifierPart else NonDigit;
    var j := FindFrom(text, w + 1, u);
    forall i | w < i < j
      ensures InRun(kind, text[i])
    {
      assert !Stops(u, text[i]);
    }
  }

  /** The operator path of nextToken: read one more character; if the two characters
      are in the table, consume both, otherwise keep the second one as lookahead and go
      on with the first alone. A read that fails sets atEOF and still hands the
      candidate to makeToken. */
  function ScanOperator(text: seq<char>, ops: set<string>, st: State, w: nat): (res: (State, Option<Token>))
    requires Wf(text, st) && !st.atEOF && w < |text| && st.cursor == w + 1
    ensures Wf(text, res.0)
    decreases 1, |text| - st.cursor, 1
  {
    var (s, right, st1) := Candidate(text, ops, st, w);
    Make(text, ops, s, st.startPosition, right, st1)
  }

  /** What the operator path hands to makeToken: the lexeme, its last column and the
      scanner state. */
  function Candidate(text: seq<char>, ops: set<string>, st: State, w: nat): (res: (string, int, State))
    requires Wf(text, st) && !st.atEOF && w < |text| && st.cursor == w + 1
    ensures Wf(text, res.2) && res.2.sourceOpen == st.sourceOpen
    ensures res.2.atEOF || res.2.cursor > st.cursor
  {
    var charOld := [text[w]];
    var start := st.startPosition;
    if w + 1 == |text| then
      (charOld, start, st.(endPosition := start, atEOF := true))
    else
      var op := charOld + [text[w + 1]];
      if op !in ops then
        (charOld, start, st.(endPosition := start, cursor := w + 2))
      else if w + 2 == |text| then
        (op, start + 1, st.(endPosition := start + 1, cursor := w + 2, atEOF := true))
      else
        (op, start + 1, st.(endPosition := start + 1, cursor := w + 3))
  }

  /** makeToken: filter a line comment, scan a character or string literal, swallow a
      closing quote, or look the candidate up in the table. Every lexeme it rejects is
      logged and ends the stream. `left` and `right` are the token's columns; the
      scanner's own endPosition field is not changed here. */
  function Make(text: seq<char>, ops: set<string>, s: string, left: int, right: int, st: State): (res: (State, Option<Token>))
    requires Wf(text, st) && st.sourceOpen
    ensures Wf(text, res.0)
    decreases if st.atEOF then 0 else 1, |text| - st.cursor, 6
  {
    if s == "//" then
      Comment(text, ops, st)
    else if s == "'" then
      if !st.charMark then CharLiteral(text, ops, left, right, st) else Next(text, ops, st)
    else if s == "\"" then
      if !st.stringMark then StringLiteral(text, ops, left, right, st) else Next(text, ops, st)
    else if s in ops then
      (st, Some(Token(left, right, Symbol(s, Operator), LineAt(text, st.cursor - 1))))
    else
      Next(text, ops, st.(atEOF := true, diagnostics := st.diagnostics + [s]))
  }

  /** The comment branch of makeToken: read until the source reports a line other than
      the lookahead's, that is one past the first line feed from the lookahead on, and
      go on with nextToken; running out of input sets atEOF. */
  function Comment(text: seq<char>, ops: set<string>, st: State): (res: (State, Option<Token>))
    requires Wf(text, st) && st.sourceOpen
    ensures Wf(text, res.0)
    decreases if st.atEOF then 0 else 1, |text| - st.cursor, 5
  {
    var nl := FindFrom(text, st.cursor - 1, Char('\n'));
    if nl + 1 < |text| then Next(text, ops, st.(cursor := nl + 2))
    else Next(text, ops, st.(cursor := |text|, atEOF := true))
  }

  /** The character-literal branch of makeToken: set charMark, take the lookahead and
      every character up to the next single quote, which stays the lookahead, or up to
      the end of input. Only a text of length 3 with the closing quote appended makes a
      token; anything else is logged and ends the stream. */
  function CharLiteral(text: seq<char>, ops: set<string>, left: int, right: int, st: State): (res: (State, Option<Token>))
    requires Wf(text, st) && st.sourceOpen
    ensures Wf(text, res.0)
    decreases if st.atEOF then 0 else 1, |text| - st.cursor, 5
  {
    var c := st.cursor;
    var q := FindFrom(text, c, Char('\''));
    var tk := "'" + text[c - 1..q] + "'";
    var st1 := st.(charMark := true, cursor := if q < |text| then q + 1 else |text|,
                   atEOF := st.atEOF || q == |text|);
    if |tk| == 3 then
      (st1, Some(Token(left, right + (q - c), Symbol(tk, CharLit), LineAt(text, st1.cursor - 1))))
    else
      Next(text, ops, st1.(atEOF := true, diagnostics := st.diagnostics + [tk]))
  }

  /** The string-literal branch of makeToken: set stringMark, take the lookahead and
      every character up to the next double quote, which stays the lookahead. Without
      that quote the text is logged and the stream ends. */
  function StringLiteral(text: seq<char>, ops: set<string>, left: int, right: int, st: State): (res: (State, Option<Token>))
    requires Wf(text, st) && st.sourceOpen
    ensures Wf(text, res.0)
    decreases if st.atEOF then 0 else 1, |text| - st.cursor, 5
  {
    var c := st.cursor;
    var q := FindFrom(text, c, Char('"'));
    var tk := "\"" + text[c - 1..q];
    var st1 := st.(stringMark := true, cursor := if q < |text| then q + 1 else |text|,
                   atEOF := st.atEOF || q == |text|);
    if q < |text| then
      (st1, Some(Token(left, right + (q - c), Symbol(tk + "\"", StringLit), LineAt(text, q))))
    else
      Next(text, ops, st1.(atEOF := true, diagnostics := st.diagnostics + [tk]))
  }
}
