/** The scanner object: its fields change in place as characters are read, and each
    call is proved to do what the functions of module Scan say. */
module LexerClass {
  import opened Chars
  import opened Source
  import opened Tokens
  import Scan

  class Lexer {
    /** The characters the source delivers, in order. */
    const text: seq<char>
    /** The operators and separators the symbol table holds (including "//"). */
    const ops: set<string>

    var atEOF: bool
    /** The next character to process. */
    var ch: char
    /** The source's read index: how many characters have been read. */
    var cursor: nat
    /** False once the source has been closed and set to null. */
    var sourceOpen: bool
    /** Columns of the current token. */
    var startPosition: int
    var endPosition: int
    var stringMark: bool
    var charMark: bool
    /** The text of every "illegal character" message, in order. */
    var diagnostics: seq<string>

    ghost predicate Valid()
      reads this
    {
      1 <= cursor <= |text| && ch == text[cursor - 1] && (!sourceOpen ==> atEOF)
    }

    /** The fields as a value of the specification. */
    function State(): (st: Scan.State)
      reads this
    {
      Scan.State(cursor, atEOF, sourceOpen, startPosition, endPosition, stringMark, charMark, diagnostics)
    }

    /** Builds the lexer over a non-empty text and reads the first lookahead; an empty
        text makes the source's first read fail, see Open. */
    constructor (text: seq<char>, ops: set<string>)
      requires |text| > 0
      ensures Valid() && this.text == text && this.ops == ops
      ensures State() == Scan.Initial() && ch == text[0]
    {
      this.text := text;
      this.ops := ops;
      atEOF := false;
      sourceOpen := true;
      startPosition, endPosition := 0, 0;
      stringMark, charMark := false, false;
      diagnostics := [];
      ch := text[0];
      cursor := 1;
    }

    /** source.read(): the next character becomes the lookahead, or false when the
        input is exhausted (the source's exception). */
    method Read() returns (ok: bool)
      requires Valid() && sourceOpen
      modifies this`cursor, this`ch
      ensures Valid()
      ensures ok == (old(cursor) < |text|)
      ensures cursor == if ok then old(cursor) + 1 else old(cursor)
    {
      if cursor < |text| {
        ch := text[cursor];
        cursor := cursor + 1;
        ok := true;
      } else {
        ok := false;
      }
    }

    /** source.getLineno(): the line of the most recently read character. */
    function Lineno(): (line: nat)
      reads this
      requires Valid()
      ensures line >= 1
    {
      LineAt(text, cursor - 1)
    }

    /** source.getPosition(): the column of the most recently read character. */
    function Position(): (col: nat)
      reads this
      requires Valid()
      ensures col < cursor
    {
      ColumnAt(text, cursor - 1)
    }

    method NewIdToken(id: string, left: int, right: int) returns (t: Token)
      requires Valid()
      ensures t == Token(left, right, Symbol(id, Identifier), LineAt(text, cursor - 1))
    {
      t := Token(left, right, Symbol(id, Identifier), Lineno());
    }

    method NewNumberToken(number: string, left: int, right: int) returns (t: Token)
      requires Valid()
      ensures t == Token(left, right, Symbol(number, INTeger), LineAt(text, cursor - 1))
    {
      t := Token(left, right, Symbol(number, INTeger), Lineno());
    }

    method NewStringToken(s: string, left: int, right: int) returns (t: Token)
      requires Valid()
      ensures t == Token(left, right, Symbol(s, StringLit), LineAt(text, cursor - 1))
    {
      t := Token(left, right, Symbol(s, StringLit), Lineno());
    }

    method NewCharToken(s: string, left: int, right: int) returns (t: Token)
      requires Valid()
      ensures t == Token(left, right, Symbol(s, CharLit), LineAt(text, cursor - 1))
    {
      t := Token(left, right, Symbol(s, CharLit), Lineno());
    }

    /** nextToken */
    method NextToken() returns (r: Option<Token>)
      requires Valid()
      modifies this
      ensures Valid()
      ensures (State(), r) == Scan.Next(text, ops, old(State()))
      decreases if atEOF then 0 else 1, |text| - cursor, 4
    {
      if atEOF {
        if sourceOpen {
          sourceOpen := false;
        }
        return None;
      }
      r := SkipAndScan();
    }

    /** nextToken before end of stream: the whitespace loop, then the lexeme. */
    method SkipAndScan() returns (r: Option<Token>)
      requires Valid() && !atEOF
      modifies this
      ensures Valid()
      ensures (State(), r) == Scan.Skip(text, ops, old(State()))
      decreases if atEOF then 0 else 1, |text| - cursor, 3
    {
      var ok := SkipWhitespace();
      if !ok {
        atEOF := true;
        r := NextToken();
        return;
      }

      startPosition := Position();
      endPosition := startPosition - 1;
      r := ScanLexeme(cursor - 1);
    }

    /** The part of nextToken after the whitespace loop: the lookahead at w starts an
        identifier, a number or an operator. */
    method ScanLexeme(ghost w: nat) returns (r: Option<Token>)
      requires Valid() && sourceOpen && !atEOF && cursor == w + 1
      requires endPosition == startPosition - 1
      modifies this
      ensures Valid()
      ensures (State(), r) == Scan.Lexeme(text, ops, old(State()), w)
      decreases if atEOF then 0 else 1, |text| - cursor, 2
    {
      if IsIdentifierStart(ch) {
        var t := ScanIdentifier();
        return Some(t);
      }

      if IsDigit(ch) {
        var t := ScanNumber();
        return Some(t);
      }

      r := OperatorToken(w);
    }

    /** The operator block of nextToken: the lookahead at w and, when the pair is in the
        table, the character after it; a failing read sets atEOF and still hands the
        candidate to makeToken. */
    method OperatorToken(ghost w: nat) returns (r: Option<Token>)
      requires Valid() && sourceOpen && !atEOF && cursor == w + 1
      requires endPosition == startPosition - 1
      modifies this
      ensures Valid()
      ensures (State(), r) == Scan.ScanOperator(text, ops, old(State()), w)
      decreases if atEOF then 0 else 1, |text| - cursor, 1
    {
      ghost var st0 := State();
      var charOld := [ch];
      var op := charOld;
      endPosition := endPosition + 1;
      var ok := Read();
      if ok {
        op := op + [ch];
        if op !in ops {
          // it must be a one-character token
          assert Scan.Candidate(text, ops, st0, w) == (charOld, endPosition, State());
          r := MakeToken(charOld, startPosition, endPosition);
          return;
        }
        endPosition := endPosition + 1;
        ok := Read();
        if ok {
          assert Scan.Candidate(text, ops, st0, w) == (op, endPosition, State());
          r := MakeToken(op, startPosition, endPosition);
          return;
        }
      }
      atEOF := true;
      if startPosition == endPosition {
        op := charOld;
      }
      assert Scan.Candidate(text, ops, st0, w) == (op, endPosition, State());
      r := MakeToken(op, startPosition, endPosition);
    }

    /** The whitespace loop of nextToken: true with the first character that is not
        whitespace as lookahead, false when the input runs out first. */
    method SkipWhitespace() returns (ok: bool)
      requires Valid() && sourceOpen
      modifies this`cursor, this`ch
      ensures Valid()
      ensures ok == (FindFrom(text, old(cursor) - 1, NonWhitespace) < |text|)
      ensures cursor == if ok then FindFrom(text, old(cursor) - 1, NonWhitespace) + 1 else |text|
    {
      ghost var w0 := cursor - 1;
      ok := true;
      while IsWhitespace(ch)
        invariant Valid() && old(cursor) <= cursor
        invariant FindFrom(text, cursor - 1, NonWhitespace) == FindFrom(text, w0, NonWhitespace)
        decreases |text| - cursor
      {
        ok := Read();
        if !ok {
          return;
        }
      }
    }

    /** The identifier block of nextToken: appends the lookahead and reads on while the
        new lookahead is an identifier part, then builds the token. */
    method ScanIdentifier() returns (t: Token)
      requires Valid() && sourceOpen && !atEOF
      requires endPosition == startPosition - 1
      requires IsIdentifierStart(text[cursor - 1])
      modifies this`cursor, this`ch, this`endPosition, this`atEOF
      ensures Valid()
      ensures (State(), Some(t)) == Scan.ScanRun(text, old(State()), old(cursor) - 1, Identifier)
    {
      var id := ReadIdentifier();
      t := NewIdToken(id, startPosition, endPosition);
    }

    /** The do-while loop of the identifier block: the characters from the lookahead up
        to the first one that is not an identifier part, which becomes the lookahead;
        running out of input sets atEOF. endPosition grows once per character. */
    method ReadIdentifier() returns (id: string)
      requires Valid() && sourceOpen && !atEOF
      modifies this`cursor, this`ch, this`endPosition, this`atEOF
      ensures Valid()
      ensures var w := old(cursor) - 1; var j := FindFrom(text, w + 1, NonIdentifierPart);
        && id == text[w..j] && atEOF == (j == |text|)
        && cursor == (if j < |text| then j + 1 else |text|)
        && endPosition == old(endPosition) + (j - w)
    {
      ghost var w := cursor - 1;
      ghost var j := FindFrom(text, w + 1, NonIdentifierPart);
      id := "";
      while true
        invariant Valid() && w < cursor && !atEOF
        invariant id == text[w..cursor - 1]
        invariant endPosition == old(endPosition) + |id|
        invariant cursor == w + 1 || j == FindFrom(text, cursor, NonIdentifierPart)
        decreases |text| - cursor
      {
        endPosition := endPosition + 1;
        id := id + [ch];
        var ok := Read();
        if !ok {
          atEOF := true;
          break;
        }
        if !IsIdentifierPart(ch) {
          break;
        }
      }
    }

    /** The number block of nextToken: the same run over decimal digits. */
    method ScanNumber() returns (t: Token)
      requires Valid() && sourceOpen && !atEOF
      requires endPosition == startPosition - 1
      requires IsDigit(text[cursor - 1])
      modifies this`cursor, this`ch, this`endPosition, this`atEOF
      ensures Valid()
      ensures (State(), Some(t)) == Scan.ScanRun(text, old(State()), old(cursor) - 1, INTeger)
    {
      var number := ReadDigits();
      t := NewNumberToken(number, startPosition, endPosition);
    }

    /** The do-while loop of the number block, over decimal digits. */
    method ReadDigits() returns (number: string)
      requires Valid() && sourceOpen && !atEOF
      modifies this`cursor, this`ch, this`endPosition, this`atEOF
      ensures Valid()
      ensures var w := old(cursor) - 1; var j := FindFrom(text, w + 1, NonDigit);
        && number == text[w..j] && atEOF == (j == |text|)
        && cursor == (if j < |text| then j + 1 else |text|)
        && endPosition == old(endPosition) + (j - w)
    {
      ghost var w := cursor - 1;
      ghost var j := FindFrom(text, w + 1, NonDigit);
      number := "";
      while true
        invariant Valid() && w < cursor && !atEOF
        invariant number == text[w..cursor - 1]
        invariant endPosition == old(endPosition) + |number|
        invariant cursor == w + 1 || j == FindFrom(text, cursor, NonDigit)
        decreases |text| - cursor
      {
        endPosition := endPosition + 1;
        number := number + [ch];
        var ok := Read();
        if !ok {
          atEOF := true;
          break;
        }
        if !IsDigit(ch) {
          break;
        }
      }
    }

    /** makeToken */
    method MakeToken(s: string, left: int, right: int) returns (r: Option<Token>)
      requires Valid() && sourceOpen
      modifies this
      ensures Valid()
      ensures (State(), r) == Scan.Make(text, ops, s, left, right, old(State()))
      decreases if atEOF then 0 else 1, |text| - cursor, 6
    {
      if s == "//" {
        SkipComment();
        r := NextToken();
        return;
      }

      if s == "'" && !charMark {
        r := CharLiteralToken(left, right);
        return;
      }

      if s == "'" && charMark {
        r := NextToken();
        return;
      }

      if s == "\"" && !stringMark {
        r := StringLiteralToken(left, right);
        return;
      }

      if s == "\"" && stringMark {
        r := NextToken();
        return;
      }

      // ensure it is a valid token
      if s !in ops {
        diagnostics := diagnostics + [s];
        atEOF := true;
        r := NextToken();
        return;
      }
      r := Some(Token(left, right, Symbol(s, Operator), Lineno()));
    }

    /** The character-literal block of makeToken. */
    method CharLiteralToken(left: int, right: int) returns (r: Option<Token>)
      requires Valid() && sourceOpen
      modifies this
      ensures Valid()
      ensures (State(), r) == Scan.CharLiteral(text, ops, left, right, old(State()))
      decreases if atEOF then 0 else 1, |text| - cursor, 5
    {
      charMark := true;
      var tk, endPos := ScanCharLiteral(right);
      tk := tk + "'";
      if |tk| == 3 {
        var t := NewCharToken(tk, left, endPos);
        return Some(t);
      }
      diagnostics := diagnostics + [tk];
      atEOF := true;
      r := NextToken();
    }

    /** The string-literal block of makeToken. */
    method StringLiteralToken(left: int, right: int) returns (r: Option<Token>)
      requires Valid() && sourceOpen
      modifies this
      ensures Valid()
      ensures (State(), r) == Scan.StringLiteral(text, ops, left, right, old(State()))
      decreases if atEOF then 0 else 1, |text| - cursor, 5
    {
      stringMark := true;
      var valid, tk, endPos := ScanStringLiteral(right);
      if valid {
        tk := tk + "\"";
        var t := NewStringToken(tk, left, endPos);
        return Some(t);
      }
      diagnostics := diagnostics + [tk];
      atEOF := true;
      r := NextToken();
    }

    /** The comment loop of makeToken: reads until the source reports a line other than
        the one it was on, that is up to the character after the next line feed; running
        out of input sets atEOF. */
    method SkipComment()
      requires Valid() && sourceOpen
      modifies this`cursor, this`ch, this`atEOF
      ensures Valid()
      ensures var nl := FindFrom(text, old(cursor) - 1, Char('\n'));
        && cursor == (if nl + 1 < |text| then nl + 2 else |text|)
        && atEOF == (old(atEOF) || nl + 1 >= |text|)
    {
      var oldLine := Lineno();
      ghost var nl := FindFrom(text, cursor - 1, Char('\n'));
      while true
        invariant Valid() && old(cursor) <= cursor <= nl + 1
        invariant atEOF == old(atEOF)
        invariant Lineno() == oldLine
        decreases |text| - cursor
      {
        var ok := Read();
        if !ok {
          atEOF := true;
          break;
        }
        assert cursor - 2 < nl ==> !Stops(Char('\n'), text[cursor - 2]);
        if oldLine != Lineno() {
          break;
        }
      }
    }

    /** The character-literal loop of makeToken: starting from the lookahead, collects
        characters up to the next single quote (left as lookahead) or the end of input
        (which sets atEOF); `endPos` grows by one per character after the first. */
    method ScanCharLiteral(right: int) returns (tk: string, endPos: int)
      requires Valid() && sourceOpen
      modifies this`cursor, this`ch, this`atEOF
      ensures Valid()
      ensures var c := old(cursor); var q := FindFrom(text, c, Char('\''));
        && tk == "'" + text[c - 1..q]
        && endPos == right + (q - c)
        && cursor == (if q < |text| then q + 1 else |text|)
        && atEOF == (old(atEOF) || q == |text|)
    {
      tk := "'" + [ch];
      endPos := right;
      ghost var c := cursor;
      ghost var q := FindFrom(text, c, Char('\''));
      var ok := Read();
      if !ok {
        atEOF := true;
        assert text[c - 1..q] == [text[c - 1]];
        return;
      }
      while true
        invariant Valid() && c < cursor <= q + 1
        invariant atEOF == old(atEOF)
        invariant tk == "'" + text[c - 1..cursor - 1]
        invariant endPos == right + (cursor - 1 - c)
        decreases |text| - cursor
      {
        if ch == '\'' {
          assert Stops(Char('\''), text[cursor - 1]);
          break;
        }
        assert cursor - 1 < q;
        endPos := endPos + 1;
        tk := tk + [ch];
        ok := Read();
        if !ok {
          atEOF := true;
          assert q == |text|;
          break;
        }
      }
    }

    /** The string-literal loop of makeToken: like the character literal, up to the next
        double quote; `valid` tells whether that quote was found. */
    method ScanStringLiteral(right: int) returns (valid: bool, tk: string, endPos: int)
      requires Valid() && sourceOpen
      modifies this`cursor, this`ch, this`atEOF
      ensures Valid()
      ensures var c := old(cursor); var q := FindFrom(text, c, Char('"'));
        && valid == (q < |text|)
        && tk == "\"" + text[c - 1..q]
        && endPos == right + (q - c)
        && cursor == (if q < |text| then q + 1 else |text|)
        && atEOF == (old(atEOF) || q == |text|)
    {
      valid := false;
      tk := "\"" + [ch];
      endPos := right;
      ghost var c := cursor;
      ghost var q := FindFrom(text, c, Char('"'));
      var ok := Read();
      if !ok {
        atEOF := true;
        assert text[c - 1..q] == [text[c - 1]];
        return;
      }
      while true
        invariant Valid() && c < cursor <= q + 1
        invariant atEOF == old(atEOF) && !valid
        invariant tk == "\"" + text[c - 1..cursor - 1]
        invariant endPos == right + (cursor - 1 - c)
        decreases |text| - cursor
      {
        if ch == '"' {
          assert Stops(Char('"'), text[cursor - 1]);
          valid := true;
          break;
        }
        assert cursor - 1 < q;
        tk := tk + [ch];
        endPos := endPos + 1;
        ok := Read();
        if !ok {
          atEOF := true;
          assert q == |text|;
          break;
        }
      }
    }
  }

  /** new Lexer(sourceFile): the constructor's first read throws on an empty source,
      so no lexer exists for it. */
  method Open(text: seq<char>, ops: set<string>) returns (lx: Lexer?)
    ensures (lx == null) == (|text| == 0)
    ensures lx != null ==>
      fresh(lx) && lx.Valid() && lx.text == text && lx.ops == ops && lx.State() == Scan.Initial()
  {
    if |text| == 0 {
      return null;
    }
    lx := new Lexer(text, ops);
  }
}
