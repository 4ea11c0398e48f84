# A verified model of the hand-written lexer

The lexer in `lexer/Lexer.java` turns a stream of characters into tokens. Each call of
`nextToken` does the following:

- skips whitespace;
- scans an identifier, a number, or a one- or two-character operator with one character
  of lookahead;
- hands the operator candidate to `makeToken`, which filters line comments, scans
  character and string literals, swallows their closing quotes and looks the candidate up
  in the symbol table.

At end of input, or after an illegal lexeme, `nextToken` closes the source and returns
`null`. The two methods call each other after a comment, after a swallowed quote and
after a diagnostic.

The model has three layers.

- **The scanner as a function of its state** (module `Scan`). `Scan.State` holds the
  lexer's fields. `Next`, `Make` and their helpers say what one call returns and how it
  leaves the fields. They recurse into each other exactly where the Java does.
- **The scanner as an object** (module `LexerClass`). The class `Lexer` has the Java
  fields. Its methods follow the Java statement by statement, with the same loops, reads
  and recursive calls. Each method is proved to leave `State()` and return what the
  matching `Scan` function says.
- **What a call guarantees.**
  - Module `Properties` proves, by induction along the mutual recursion, what every
    call delivers:
    - the fields only move forward;
    - `None` comes exactly when the source is closed, and stays;
    - a diagnostic ends the stream;
    - every token is well formed for its kind.
  - Module `Lexemes` proves what a single call does with each kind of lexeme:
    - maximal identifier and number runs;
    - longest-match operators;
    - illegal characters;
    - comments;
    - literals, and swallowed closing quotes;
    - whitespace-only input.

    It also checks worked inputs such as `<=`, `+5`, `"abc"`, `'a'`, `'ab'` and
    `// ignored` followed by `42`.

Modelling decisions:

- **The source.** It is the sequence `text`, with a read index `cursor`. The lookahead
  `ch` is always `text[cursor - 1]`. A read fails exactly when the text is exhausted, and
  the source's exception is that failure.
- **Lines and columns.**
  - `source.getLineno()` is `LineAt(text, cursor - 1)`, the 1-based line of the most
    recently read character.
  - `source.getPosition()` is `ColumnAt(text, cursor - 1)`, its 0-based column.
- **The symbol table.** It is the set `ops` of operator and separator texts it holds, so
  `Symbol.symbol(s, Tokens.BogusToken) != null` is `s in ops`.
- **Diagnostics.** Every "illegal character" message is appended to a `diagnostics`
  log.
- **Closing the source.** Setting `source = null` is the flag `sourceOpen := false`.

The model follows the Java where one might expect otherwise:

- **The literal marks are never cleared.** `charMark` and `stringMark` are set when a
  literal opens and never reset. Every later quote of the same kind is swallowed as if it
  closed a literal, unless it pairs with the next character into an operator of the
  table. `Lexemes.SecondCharLiteralExample` shows `'a' 'b'` yielding the character
  literal `'a'` and then the identifier `b`.
- **The character literal runs to the next single quote.**
  - It does not stop after one character.
  - The closing quote is appended whether or not it was found.
  - Only a three-character result becomes a token, so `'a` at end of input becomes
    `'a'`, and a lone `'` at end of input becomes `'''`.
- **`""` is not an empty string.** The character after the opening quote is always taken
  as content, so the second quote does not close the literal. `""` alone is unterminated,
  and `"""` is the string literal `"""` with a quote inside.
- **`makeToken`'s `endPosition` is its parameter.** The literal loops increment the
  parameter, not the field, so the field keeps the value `nextToken` gave it.

## Model

| member | source | states |
|---|---|---|
| Source.LineAt | lexer/Lexer.java:50 | The line reported by the source is at least 1; it is one more than the number of line feeds before the character. |
| Source.NewlinesBeforeCounts | lexer/Lexer.java:50 | The line count is exactly the number of line feeds in the prefix read so far. |
| Source.ColumnAt | lexer/Lexer.java:224 | The column of a character is at most its index, and the character that many places before it is the start of the text or follows a line feed. |
| Source.ColumnAtLineStart | lexer/Lexer.java:224 | No line feed lies between the start of the character's line and the character, so the column counts exactly the characters since the last line feed. |
| Source.FindFrom | lexer/Lexer.java:216-218 | The scan loops stop at the first character at or after the start that ends the run (or at the end of the text); every character before it continues the run. |
| Scan.Next | lexer/Lexer.java:203-212 | nextToken keeps the state well formed: the cursor stays within the text and the source is closed only at end of stream. |
| Scan.Skip | lexer/Lexer.java:214-225 | The whitespace loop and what follows it keep the state well formed. |
| Scan.Lexeme | lexer/Lexer.java:227-292 | Dispatch on the lookahead (identifier start, digit, anything else) keeps the state well formed. |
| Scan.ScanRun | lexer/Lexer.java:227-259 | The identifier and number blocks always return a token and keep the state well formed. |
| Scan.ScanRunMaximal | lexer/Lexer.java:227-259 | A run is the text from the lookahead to the first character outside its class; every character in between is in the class; the stop character is the new lookahead or the input ran out and atEOF is set; the token's columns span exactly its length; its line is the lookahead's line. |
| Scan.ScanOperator | lexer/Lexer.java:261-292 | The operator block hands its candidate to makeToken and keeps the state well formed. |
| Scan.Candidate | lexer/Lexer.java:264-292 | The candidate state keeps the source open and well formed, and either consumed input or set atEOF. |
| Scan.Make | lexer/Lexer.java:99-198 | makeToken keeps the state well formed on every branch. |
| Scan.Comment | lexer/Lexer.java:102-114 | The comment branch keeps the state well formed. |
| Scan.CharLiteral | lexer/Lexer.java:117-149 | The character-literal branch keeps the state well formed. |
| Scan.StringLiteral | lexer/Lexer.java:152-185 | The string-literal branch keeps the state well formed. |
| LexerClass.Lexer.constructor | lexer/Lexer.java:30-35 | A new lexer has read the first character as lookahead, with all flags clear, the source open and no diagnostics. |
| LexerClass.Open | lexer/Lexer.java:30-35 | Construction fails (no lexer) exactly when the source is empty; otherwise the lexer is in the initial state. |
| LexerClass.Lexer.Read | lexer/Lexer.java:217 | A read succeeds exactly when characters remain; it advances by one and updates the lookahead, and otherwise changes nothing. |
| LexerClass.Lexer.Lineno | lexer/Lexer.java:50 | The line number of the lookahead is at least 1. |
| LexerClass.Lexer.Position | lexer/Lexer.java:224 | The column of the lookahead is less than the number of characters read. |
| LexerClass.Lexer.NewIdToken | lexer/Lexer.java:46-52 | The token carries the given columns, the text as an Identifier symbol and the lookahead's line. |
| LexerClass.Lexer.NewNumberToken | lexer/Lexer.java:66-72 | The token carries the given columns, the text as an INTeger symbol and the lookahead's line. |
| LexerClass.Lexer.NewStringToken | lexer/Lexer.java:74-80 | The token carries the given columns, the text as a StringLit symbol and the lookahead's line. |
| LexerClass.Lexer.NewCharToken | lexer/Lexer.java:82-88 | The token carries the given columns, the text as a CharLit symbol and the lookahead's line. |
| LexerClass.Lexer.NextToken | lexer/Lexer.java:203-212 | The method returns and leaves exactly what Scan.Next gives for the old fields. |
| LexerClass.Lexer.SkipAndScan | lexer/Lexer.java:214-225 | The whitespace loop and lexeme scan return and leave exactly what Scan.Skip gives. |
| LexerClass.Lexer.SkipWhitespace | lexer/Lexer.java:214-222 | The loop succeeds exactly when a non-whitespace character remains, which becomes the lookahead; otherwise the input is exhausted. |
| LexerClass.Lexer.ScanLexeme | lexer/Lexer.java:227-292 | The dispatch returns and leaves exactly what Scan.Lexeme gives. |
| LexerClass.Lexer.ScanIdentifier | lexer/Lexer.java:227-242 | The identifier block returns the token and leaves the fields exactly as Scan.ScanRun gives for identifiers. |
| LexerClass.Lexer.ReadIdentifier | lexer/Lexer.java:229-239 | The do-while loop collects the text up to the first non-identifier character, which becomes the lookahead (or sets atEOF); endPosition grows once per character. |
| LexerClass.Lexer.ScanNumber | lexer/Lexer.java:244-259 | The number block returns the token and leaves the fields exactly as Scan.ScanRun gives for numbers. |
| LexerClass.Lexer.ReadDigits | lexer/Lexer.java:246-256 | The do-while loop collects the digits up to the first non-digit, which becomes the lookahead (or sets atEOF); endPosition grows once per digit. |
| LexerClass.Lexer.OperatorToken | lexer/Lexer.java:261-292 | The operator block, through each of its three makeToken calls, returns and leaves exactly what Scan.ScanOperator gives. |
| LexerClass.Lexer.MakeToken | lexer/Lexer.java:99-198 | makeToken returns and leaves exactly what Scan.Make gives, on every branch. |
| LexerClass.Lexer.SkipComment | lexer/Lexer.java:102-114 | The comment loop stops on the character after the next line feed, or sets atEOF when the input ends first. |
| LexerClass.Lexer.CharLiteralToken | lexer/Lexer.java:117-149 | The character-literal block returns and leaves exactly what Scan.CharLiteral gives. |
| LexerClass.Lexer.ScanCharLiteral | lexer/Lexer.java:117-134 | The loop collects the lookahead and every character up to the next single quote, which becomes the lookahead, or sets atEOF; the end column grows once per character after the first. |
| LexerClass.Lexer.StringLiteralToken | lexer/Lexer.java:152-185 | The string-literal block returns and leaves exactly what Scan.StringLiteral gives. |
| LexerClass.Lexer.ScanStringLiteral | lexer/Lexer.java:152-171 | The loop collects the lookahead and every character up to the next double quote; it reports valid exactly when that quote was found and it is the new lookahead, and otherwise sets atEOF; the end column grows once per character after the first. |
| Properties.NextOutcome | lexer/Lexer.java:203-293 | Every nextToken call: fields only move forward; None exactly when the source is closed, and only at end of stream; at most one diagnostic, and only with None; a call that logs nothing, started with atEOF only at the end of the input, reaches end of stream only with the input used up; every token is well formed for its kind (operators in the table, runs of their class, literals quoted with the lengths above); every token consumes input. |
| Properties.SkipOutcome | lexer/Lexer.java:214-225 | The same guarantees after the whitespace loop. |
| Properties.LexemeOutcome | lexer/Lexer.java:227-292 | The same guarantees for a lexeme that starts with a non-whitespace lookahead. |
| Properties.RunOutcome | lexer/Lexer.java:227-259 | Identifier and number tokens are well formed and consume input. |
| Properties.OperatorOutcome | lexer/Lexer.java:261-292 | The same guarantees for the operator block. |
| Properties.MakeOutcome | lexer/Lexer.java:99-198 | The same guarantees for makeToken on a one- or two-character candidate. |
| Properties.CommentOutcome | lexer/Lexer.java:102-114 | The same guarantees for the comment branch. |
| Properties.CharLiteralOutcome | lexer/Lexer.java:117-149 | A character literal token is exactly three characters between single quotes with one column, charMark is set, and the closing quote is the lookahead unless the input ended. |
| Properties.StringLiteralOutcome | lexer/Lexer.java:152-185 | A string literal token starts and ends with a double quote, has no double quote after its first inner character, spans one column per inner character after the first, and leaves stringMark set and its closing quote as lookahead. |
| Properties.NoneIsFinal | lexer/Lexer.java:205-212 | After a call returns None, every further call returns None and changes nothing. |
| Properties.DiagnosticEndsStream | lexer/Lexer.java:188-195 | A call that logs a diagnostic logs exactly one, returns None, sets atEOF and closes the source. |
| Properties.QuietEndIsEndOfInput | lexer/Lexer.java:203-222 | From a state whose end-of-stream flag is set only with the input used up, a call that returns None without logging a diagnostic leaves the cursor at the end of the input. |
| Properties.QuietEndFromStart | lexer/Lexer.java:30-35 | From the state the constructor builds, a first call that returns None and logs nothing has used up the whole input. |
| Properties.MarksNeverReset | lexer/Lexer.java:117-118 | charMark and stringMark, once set, stay set; the cursor never moves back. |
| Lexemes.NextAt | lexer/Lexer.java:214-225 | A call skips the whitespace before the first non-whitespace character and records its column as the start column. |
| Lexemes.NextOperator | lexer/Lexer.java:261-292 | A lexeme that is not an identifier or number goes to makeToken with the operator block's candidate. |
| Lexemes.MakeLookup | lexer/Lexer.java:188-197 | A candidate that is not a comment or quote becomes an operator token when it is in the table, and otherwise is logged, sets atEOF, closes the source and gives None. |
| Lexemes.WhitespaceOnly | lexer/Lexer.java:214-222 | Input holding only whitespace from the lookahead on gives None, with the source closed and no diagnostic. |
| Lexemes.WhitespaceOnlyInput | lexer/Lexer.java:214-222 | A lexer over whitespace-only input returns None on its first call. |
| Lexemes.NextIsRun | lexer/Lexer.java:227-259 | A lookahead that starts an identifier or a number goes to the run loop of that kind. |
| Lexemes.NextRun | lexer/Lexer.java:227-259 | An identifier or number token is the longest run of its class: its text is the characters up to the first one outside the class, its columns span its length, the stop character is the lookahead or atEOF is set, and its line is that of the new lookahead. |
| Lexemes.TwoCharOperator | lexer/Lexer.java:267-284 | Longest match: a pair in the table consumes both characters and makes one token of two columns, with the next character as lookahead. |
| Lexemes.LoneCandidate | lexer/Lexer.java:264-279 | A lookahead that does not pair with its successor into a table entry, or is the last character, goes to makeToken alone with a one-column span. |
| Lexemes.SingleCandidate | lexer/Lexer.java:264-292 | The lone candidate is then looked up in the table as in makeToken. |
| Lexemes.OneCharOperator | lexer/Lexer.java:276-292 | A single table character that does not pair makes its own one-column token, also as the last character of the input (which sets atEOF). |
| Lexemes.IllegalCharacter | lexer/Lexer.java:188-195 | A lone character not in the table is logged, ends the stream and gives None. |
| Lexemes.LineComment | lexer/Lexer.java:102-114 | A line comment gives no token: the call continues from the character after the next line feed, or ends the stream. |
| Lexemes.CommentToEnd | lexer/Lexer.java:102-114 | A comment with no line feed after it gives None. |
| Lexemes.QuoteSwallowed | lexer/Lexer.java:147-149 | With its mark set, a quote that does not pair into an operator gives no token: the call continues after it. |
| Lexemes.CharLiteralCases | lexer/Lexer.java:117-145 | The character-literal branch gives a token exactly when the text with both quotes has three characters; otherwise it logs that text and ends the stream. |
| Lexemes.CharLiteralAt | lexer/Lexer.java:117-145 | From the opening quote: a token exactly when one character lies before the next single quote (or the input ends after one); its text has the closing quote appended and its end column grows once per character after the first; otherwise the text is logged and the stream ends. |
| Lexemes.StringLiteralCases | lexer/Lexer.java:152-180 | The string-literal branch gives a token exactly when a closing double quote is found; otherwise it logs the text and ends the stream. |
| Lexemes.StringLiteralAt | lexer/Lexer.java:152-180 | From the opening quote: a token exactly when a closing double quote follows; its text starts and ends with a double quote, the quote is the new lookahead and the end column grows once per character after the first; an unterminated literal is logged and the stream ends. |
| Lexemes.StringExample | lexer/Lexer.java:152-175 | Input `"abc"` gives one string-literal token with text `"abc"`. |
| Lexemes.UnterminatedStringExample | lexer/Lexer.java:176-180 | Input `"abc` logs `"abc` and gives None with no token. |
| Lexemes.EmptyStringExample | lexer/Lexer.java:152-180 | Input `""` is logged as unterminated. |
| Lexemes.TripleQuoteExample | lexer/Lexer.java:152-175 | Input `"""` gives the string literal `"""`, whose second quote is content, at columns 0..0. |
| Lexemes.CharExample | lexer/Lexer.java:117-149 | Input `'a'` gives the token `'a'`; the next call swallows the closing quote and gives None without a diagnostic. |
| Lexemes.LoneQuoteExample | lexer/Lexer.java:117-139 | A lone `'` at end of input gives the character literal `'''`. |
| Lexemes.LongCharExample | lexer/Lexer.java:137-144 | Input `'ab'` is logged and ends the stream. |
| Lexemes.LessEqualExample | lexer/Lexer.java:267-284 | Input `<=` gives one token `<=`. |
| Lexemes.PlusFiveExample | lexer/Lexer.java:276-278 | Input `+5` gives the token `+`, then the number `5`, then None. |
| Lexemes.CommentExample | lexer/Lexer.java:102-114 | Input `// ignored`, a line feed and `42` gives only the number `42`, on line 2, then None. |
| Lexemes.LeadingZerosExample | lexer/Lexer.java:244-259 | Input `007` gives the number token `007` unchanged. |
| Lexemes.SecondCharLiteralExample | lexer/Lexer.java:147-149 | In `'a' 'b'` the second call swallows the closing quote of `'a'` and the opening quote of `'b'` and gives the identifier `b`; the third call swallows the last quote and gives None. |

## Left out

- `main` (lines 296-316), the interactive command line that prints tokens, is not modelled.
- `SourceReader` is not part of this model. The source is a character sequence with a
  read index. The model assumes:
  - a read fails exactly at the end of the text, and keeps failing after that;
  - `getLineno` reports the 1-based line of the most recently read character;
  - `getPosition` reports its 0-based column.

  Other I/O errors are not modelled.
- `close()` on the source is the `sourceOpen` flag. Releasing the file is outside the
  model.
- `Symbol`, `Tokens`, `TokenType` and `Token` are not part of this model:
  - the symbol table is the set `ops` of the operator and separator texts it holds;
  - interning, reserved-word kinds and identity of `Symbol` objects are not modelled;
  - a token's symbol is the pair of its text and the kind proposed by the builder, or
    `Operator` for a table entry;
  - the `new TokenType()` initialisation (line 32) is outside the model.
- `System.out.println` diagnostics are appended to a log of their texts. Output is not
  modelled.
- Character classes are the ASCII part of `Character.isWhitespace`,
  `isJavaIdentifierStart`, `isJavaIdentifierPart` and `isDigit`. Characters above U+007F
  are in no class. Java's 16-bit `char` and surrogate pairs are not modelled.
- The field `line` (line 21) is never read or written by the lexer and is not modelled.
- The depth of the Java recursion, which the stack bounds, is not modelled.
- The constructor requires a non-empty text. The exception the Java constructor throws
  on an empty source is `LexerClass.Open` returning `null`.
- Scan.Next: its own contract states only that the state stays well formed; what it computes is stated by the lemmas in `Properties` and `Lexemes` and by the `Lexer` method proved equal to it.
- Scan.Skip: its own contract states only that the state stays well formed; what it computes is stated by the lemmas in `Properties` and `Lexemes` and by the `Lexer` method proved equal to it.
- Scan.Lexeme: its own contract states only that the state stays well formed; what it computes is stated by the lemmas in `Properties` and `Lexemes` and by the `Lexer` method proved equal to it.
- Scan.ScanRun: its own contract states only that the state stays well formed; what it computes is stated by the lemmas in `Properties` and `Lexemes` and by the `Lexer` method proved equal to it.
- Scan.ScanOperator: its own contract states only that the state stays well formed; what it computes is stated by the lemmas in `Properties` and `Lexemes` and by the `Lexer` method proved equal to it.
- Scan.Make: its own contract states only that the state stays well formed; what it computes is stated by the lemmas in `Properties` and `Lexemes` and by the `Lexer` method proved equal to it.
- Scan.Comment: its own contract states only that the state stays well formed; what it computes is stated by the lemmas in `Properties` and `Lexemes` and by the `Lexer` method proved equal to it.
- Scan.CharLiteral: its own contract states only that the state stays well formed; what it computes is stated by the lemmas in `Properties` and `Lexemes` and by the `Lexer` method proved equal to it.
- Scan.StringLiteral: its own contract states only that the state stays well formed; what it computes is stated by the lemmas in `Properties` and `Lexemes` and by the `Lexer` method proved equal to it.
