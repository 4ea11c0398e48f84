/** What every call of the scanner guarantees, proved by induction along the mutual
    recursion of nextToken and makeToken. */
module Properties {
  import opened Chars
  import opened Source
  import opened Tokens
  import opened Scan

  /** The fields only move forward: the cursor never goes back, atEOF and both quote
      marks are never reset, a closed source stays closed, and the diagnostics log is
      only appended to. */
  predicate Monotone(st: State, st2: State)
  {
    && st.cursor <= st2.cursor
    && (st.atEOF ==> st2.atEOF)
    && (st.charMark ==> st2.charMark)
    && (st.stringMark ==> st2.stringMark)
    && (!st.sourceOpen ==> !st2.sourceOpen)
    && |st.diagnostics| <= |st2.diagnostics|
    && st2.diagnostics[..|st.diagnostics|] == st.diagnostics
  }

  /** A token as the scanner can build it: its text is never empty and never starts
      with whitespace, and per kind it has the shape and the columns its loop gives it. */
  predicate WellFormed(ops: set<string>, t: Token)
  {
    var s := t.symbol.text;
    && |s| >= 1
    && !IsWhitespace(s[0])
    && match t.symbol.kind
       case Identifier =>
         && IsIdentifierStart(s[0])
         && (forall i | 1 <= i < |s| :: IsIdentifierPart(s[i]))
         && t.right - t.left + 1 == |s|
       case INTeger =>
         && (forall i | 0 <= i < |s| :: IsDigit(s[i]))
         && t.right - t.left + 1 == |s|
       case CharLit =>
         && |s| == 3 && s[0] == '\'' && s[2] == '\''
         && t.right == t.left
       case StringLit =>
         && |s| >= 3 && s[0] == '"' && s[|s| - 1] == '"'
         && (forall i | 2 <= i < |s| - 1 :: s[i] != '"')
         && t.right - t.left == |s| - 3
       case Operator =>
         && s in ops && |s| <= 2
         && t.right - t.left + 1 == |s|
  }

  /** End of stream has been reached only with the input used up. */
  predicate Spent(text: seq<char>, st: State)
  {
    st.atEOF ==> st.cursor == |text|
  }

  /** What one call delivers, relative to the state it started from: the fields move
      forward; None comes exactly when the source has been closed, and only at end of
      stream; at most one diagnostic is logged, and only by a call that returns None;
      a call that logs nothing reaches end of stream only with the input used up;
      every token is well formed; after a literal token the scanner has set the
      literal's mark and holds the closing quote as lookahead, except after a
      character literal cut short by the end of input. */
  predicate Outcome(text: seq<char>, ops: set<string>, st: State, res: (State, Option<Token>))
    requires Wf(text, res.0)
  {
    && Monotone(st, res.0)
    && |res.0.diagnostics| <= |st.diagnostics| + 1
    && (|res.0.diagnostics| > |st.diagnostics| ==> res.1.None?)
    && (res.1.None? <==> !res.0.sourceOpen)
    && (res.1.None? ==> res.0.atEOF)
    && (Spent(text, st) && |res.0.diagnostics| == |st.diagnostics| ==> Spent(text, res.0))
    && (res.1.Some? ==> WellFormed(ops, res.1.value))
    && (res.1.Some? && res.1.value.symbol.kind == StringLit ==>
          res.0.stringMark && text[res.0.cursor - 1] == '"')
    && (res.1.Some? && res.1.value.symbol.kind == CharLit ==>
          res.0.charMark && (res.0.atEOF || text[res.0.cursor - 1] == '\''))
  }

  /** A call that returns a token has consumed input: it either moved the cursor or hit
      the end of input. */
  predicate Advanced(st: State, st2: State)
  {
    st.cursor < st2.cursor || (!st.atEOF && st2.atEOF)
  }

  lemma {:induction false} NextOutcome(text: seq<char>, ops: set<string>, st: State)
    requires Wf(text, st)
    ensures var res := Next(text, ops, st);
      && Outcome(text, ops, st, res)
      && (res.1.Some? ==> Advanced(st, res.0))
    decreases if st.atEOF then 0 else 1, |text| - st.cursor, 4
  {
    if !st.atEOF {
      SkipOutcome(text, ops, st);
    }
  }

  lemma {:induction false} SkipOutcome(text: seq<char>, ops: set<string>, st: State)
    requires Wf(text, st) && !st.atEOF
    ensures var res := Skip(text, ops, st);
      && Outcome(text, ops, st, res)
      && (res.1.Some? ==> Advanced(st, res.0))
    decreases 1, |text| - st.cursor, 3
  {
    var w := FindFrom(text, st.cursor - 1, NonWhitespace);
    if w == |text| {
      NextOutcome(text, ops, st.(cursor := |text|, atEOF := true));
    } else {
      var start: int := ColumnAt(text, w);
      var st1 := st.(cursor := w + 1, startPosition := start, endPosition := start - 1);
      LexemeOutcome(text, ops, st1, w);
    }
  }

  lemma {:induction false} LexemeOutcome(text: seq<char>, ops: set<string>, st: State, w: nat)
    requires Wf(text, st) && !st.atEOF && w < |text| && st.cursor == w + 1
    requires !IsWhitespace(text[w])
    ensures var res := Lexeme(text, ops, st, w);
      && Outcome(text, ops, st, res)
      && (res.1.Some? ==> Advanced(st, res.0))
    decreases 1, |text| - st.cursor, 2
  {
    if IsIdentifierStart(text[w]) {
      RunOutcome(text, ops, st, w, Identifier);
    } else if IsDigit(text[w]) {
      RunOutcome(text, ops, st, w, INTeger);
    } else {
      OperatorOutcome(text, ops, st, w);
    }
  }

  lemma RunOutcome(text: seq<char>, ops: set<string>, st: State, w: nat, kind: Kind)
    requires Wf(text, st) && !st.atEOF && w < |text| && st.cursor == w + 1
    requires kind == Identifier || kind == INTeger
    requires kind == Identifier ==> IsIdentifierStart(text[w])
    requires kind == INTeger ==> IsDigit(text[w])
    ensures var res := ScanRun(text, st, w, kind);
      Outcome(text, ops, st, res) && Advanced(st, res.0)
  {
    ScanRunMaximal(text, st, w, kind);
  }

  lemma {:induction false} OperatorOutcome(text: seq<char>, ops: set<string>, st: State, w: nat)
    requires Wf(text, st) && !st.atEOF && w < |text| && st.cursor == w + 1
    requires !IsWhitespace(text[w])
    ensures var res := ScanOperator(text, ops, st, w);
      && Outcome(text, ops, st, res)
      && (res.1.Some? ==> Advanced(st, res.0))
    decreases 1, |text| - st.cursor, 1
  {
    var (s, right, st1) := Candidate(text, ops, st, w);
    MakeOutcome(text, ops, s, st.startPosition, right, st1);
  }

  lemma {:induction false} MakeOutcome(text: seq<char>, ops: set<string>, s: string, left: int, right: int, st: State)
    requires Wf(text, st) && st.sourceOpen
    requires 1 <= |s| <= 2 && right - left + 1 == |s| && !IsWhitespace(s[0])
    ensures Outcome(text, ops, st, Make(text, ops, s, left, right, st))
    decreases if st.atEOF then 0 else 1, |text| - st.cursor, 6
  {
    if s == "//" {
      CommentOutcome(text, ops, st);
    } else if s == "'" {
      if !st.charMark {
        CharLiteralOutcome(text, ops, left, right, st);
      } else {
        NextOutcome(text, ops, st);
      }
    } else if s == "\"" {
      if !st.stringMark {
        StringLiteralOutcome(text, ops, left, right, st);
      } else {
        NextOutcome(text, ops, st);
      }
    } else if s !in ops {
      NextOutcome(text, ops, st.(atEOF := true, diagnostics := st.diagnostics + [s]));
    }
  }

  lemma {:induction false} CommentOutcome(text: seq<char>, ops: set<string>, st: State)
    requires Wf(text, st) && st.sourceOpen
    ensures Outcome(text, ops, st, Comment(text, ops, st))
    decreases if st.atEOF then 0 else 1, |text| - st.cursor, 5
  {
    var nl := FindFrom(text, st.cursor - 1, Char('\n'));
    if nl + 1 < |text| {
      NextOutcome(text, ops, st.(cursor := nl + 2));
    } else {
      NextOutcome(text, ops, st.(cursor := |text|, atEOF := true));
    }
  }

  lemma {:induction false} CharLiteralOutcome(text: seq<char>, ops: set<string>, left: int, right: int, st: State)
    requires Wf(text, st) && st.sourceOpen && right == left
    ensures Outcome(text, ops, st, CharLiteral(text, ops, left, right, st))
    decreases if st.atEOF then 0 else 1, |text| - st.cursor, 5
  {
    var c := st.cursor;
    var q := FindFrom(text, c, Char('\''));
    var tk := "'" + text[c - 1..q] + "'";
    var st1 := st.(charMark := true, cursor := if q < |text| then q + 1 else |text|,
                   atEOF := st.atEOF || q == |text|);
    if |tk| != 3 {
      NextOutcome(text, ops, st1.(atEOF := true, diagnostics := st.diagnostics + [tk]));
    }
  }

  lemma {:induction false} StringLiteralOutcome(text: seq<char>, ops: set<string>, left: int, right: int, st: State)
    requires Wf(text, st) && st.sourceOpen && right == left
    ensures Outcome(text, ops, st, StringLiteral(text, ops, left, right, st))
    decreases if st.atEOF then 0 else 1, |text| - st.cursor, 5
  {
    var c := st.cursor;
    var q := FindFrom(text, c, Char('"'));
    var tk := "\"" + text[c - 1..q];
    var st1 := st.(stringMark := true, cursor := if q < |text| then q + 1 else |text|,
                   atEOF := st.atEOF || q == |text|);
    if q < |text| {
      var s := tk + "\"";
      assert forall i | 2 <= i < |s| - 1 :: s[i] == text[c + i - 2];
    } else {
      NextOutcome(text, ops, st1.(atEOF := true, diagnostics := st.diagnostics + [tk]));
    }
  }

  /** After None every further call returns None and changes nothing: the source is
      closed once and stays closed. */
  lemma NoneIsFinal(text: seq<char>, ops: set<string>, st: State)
    requires Wf(text, st)
    ensures var res := Next(text, ops, st);
      res.1.None? ==> Next(text, ops, res.0) == (res.0, None)
  {
    NextOutcome(text, ops, st);
  }

  /** A logged diagnostic ends the stream: the call that logs it returns None, and it
      logs exactly one message. */
  lemma DiagnosticEndsStream(text: seq<char>, ops: set<string>, st: State)
    requires Wf(text, st)
    ensures var res := Next(text, ops, st);
      |res.0.diagnostics| != |st.diagnostics| ==>
        && res.1.None? && res.0.atEOF && !res.0.sourceOpen
        && |res.0.diagnostics| == |st.diagnostics| + 1
        && res.0.diagnostics[..|st.diagnostics|] == st.diagnostics
  {
    NextOutcome(text, ops, st);
  }

  /** The converse of DiagnosticEndsStream: from a state where end of stream means the
      input is used up (the initial state is one), a call that logs nothing returns None
      only when the whole input has been read. */
  lemma QuietEndIsEndOfInput(text: seq<char>, ops: set<string>, st: State)
    requires Wf(text, st) && (st.atEOF ==> st.cursor == |text|)
    ensures var res := Next(text, ops, st);
      res.1.None? && |res.0.diagnostics| == |st.diagnostics| ==> res.0.cursor == |text|
  {
    NextOutcome(text, ops, st);
  }

  /** A lexer's first call that returns None without a diagnostic has read all of its
      input. */
  lemma QuietEndFromStart(text: seq<char>, ops: set<string>)
    requires |text| > 0
    ensures var res := Next(text, ops, Initial());
      res.1.None? && res.0.diagnostics == [] ==> res.0.cursor == |text|
  {
    QuietEndIsEndOfInput(text, ops, Initial());
  }

  /** The quote marks are set at most once and never cleared; the cursor never moves
      back. */
  lemma MarksNeverReset(text: seq<char>, ops: set<string>, st: State)
    requires Wf(text, st)
    ensures var res := Next(text, ops, st);
      && (st.charMark ==> res.0.charMark)
      && (st.stringMark ==> res.0.stringMark)
      && st.cursor <= res.0.cursor
  {
    NextOutcome(text, ops, st);
  }
}
