/** The character source as the scanner sees it: a text read one character at a time,
    with the line and column of any character. The scanner keeps a read index `cursor`
    (the number of characters read so far); the most recently read character, at index
    cursor - 1, is the one whose line and column the source reports. */
module Source {
  import opened Chars

  /** Number of line feeds strictly before index i. */
  function NewlinesBefore(text: seq<char>, i: nat): (n: nat)
    requires i <= |text|
    ensures n <= i
  {
    if i == 0 then 0
    else NewlinesBefore(text, i - 1) + (if text[i - 1] == '\n' then 1 else 0)
  }

  /** NewlinesBefore counts exactly the line feeds of the prefix. */
  lemma {:induction false} NewlinesBeforeCounts(text: seq<char>, i: nat)
    requires i <= |text|
    ensures NewlinesBefore(text, i) == multiset(text[..i])['\n']
    decreases i
  {
    if i > 0 {
      NewlinesBeforeCounts(text, i - 1);
      assert text[..i] == text[..i - 1] + [text[i - 1]];
    }
  }

  /** The 1-based line of the character at index i: a line feed belongs to the line it
      ends. */
  function LineAt(text: seq<char>, i: nat): (line: nat)
    requires i < |text|
    ensures line >= 1
  {
    1 + NewlinesBefore(text, i)
  }

  /** The 0-based column of the character at index i: how many characters separate it
      from the last line feed before it (or from the start of the text). */
  function ColumnAt(text: seq<char>, i: nat): (col: nat)
    requires i < |text|
    ensures col <= i
    ensures i - col == 0 || text[i - col - 1] == '\n'
  {
    if i == 0 then 0
    else if text[i - 1] == '\n' then 0
    else ColumnAt(text, i - 1) + 1
  }

  /** The column counts the characters since the start of the line: none of them is a
      line feed, and the line starts at the beginning of the text or after one. */
  lemma {:induction false} ColumnAtLineStart(text: seq<char>, i: nat)
    requires i < |text|
    ensures var col := ColumnAt(text, i);
      && (forall k | i - col <= k < i :: text[k] != '\n')
      && (i - col == 0 || text[i - col - 1] == '\n')
    decreases i
  {
    if i > 0 && text[i - 1] != '\n' {
      ColumnAtLineStart(text, i - 1);
    }
  }

  /** The condition a scanning loop stops on. */
  datatype Until = NonWhitespace | NonIdentifierPart | NonDigit | Char(c: char)

  predicate Stops(u: Until, c: char)
  {
    match u
    case NonWhitespace => !IsWhitespace(c)
    case NonIdentifierPart => !IsIdentifierPart(c)
    case NonDigit => !IsDigit(c)
    case Char(d) => c == d
  }

  /** The first index at or after i whose character stops the scan, or |text| when the
      input runs out first. */
  function FindFrom(text: seq<char>, i: nat, u: Until): (j: nat)
    requires i <= |text|
    ensures i <= j <= |text|
    ensures forall k {:trigger Stops(u, text[k])} | i <= k < j :: !Stops(u, text[k])
    ensures j < |text| ==> Stops(u, text[j])
    decreases |text| - i
  {
    if i == |text| || Stops(u, text[i]) then i else FindFrom(text, i + 1, u)
  }
}
