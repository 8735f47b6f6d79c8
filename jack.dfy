/**
 * The character classifier of the Jack tokenizer: `get_col` maps one input
 * character to the name of the column of the tokenizer's transition table.
 * The branches are tried in order and the first one that matches decides.
 */
module JackColumns {
  import opened Text

  /** The operator characters that share the column SY_OP. */
  const SY_OP: seq<char> := ['+', '*', '/', '&', '|', '<', '>']

  /** The one-character symbols with a column of their own, besides '/', '*', '"' and '_'. */
  const SYMBOL_COLUMNS: map<char, string> := map[
    '(' := "SY_LPAREN", ')' := "SY_RPAREN", '[' := "SY_LBRACKET", ']' := "SY_RBRACKET",
    '{' := "SY_LBRACE", '}' := "SY_RBRACE", ';' := "SY_SEMI", '.' := "SY_PERIOD",
    ',' := "SY_COMMA", '=' := "SY_EQ", '-' := "SY_MINUS", '~' := "SY_NOT"]

  /** The characters some branch of the classifier claims. */
  predicate Recognised(c: char) {
    IsSpace(c) || IsDigit(c) || IsAlpha(c) || c in "/*\"_" || c in SYMBOL_COLUMNS || c in SY_OP
  }

  /**
   * The column of a single character. The argument is a `char`, so the one
   * input on which the first-match order would misbehave, the empty string
   * (`'' in '/'` holds in Python), cannot be passed.
   */
  function GetCol(c: char): (col: string)
    // Line breaks are claimed before the general whitespace test.
    ensures col == "NEWLINE" <==> c == '\r' || c == '\n'
    ensures col == "SPACE" <==> IsSpace(c) && c != '\r' && c != '\n'
    // '/' and '*' are claimed before the operator list that also holds them.
    ensures col == "SLASH" <==> c == '/'
    ensures col == "STAR" <==> c == '*'
    ensures col == "QUOTE" <==> c == '"'
    // Digits and letters are their own column, and only they give one-character names.
    ensures |col| == 1 <==> IsDigit(c) || IsAlpha(c)
    ensures |col| == 1 ==> col == [c]
    ensures col == "UNDERSCORE" <==> c == '_'
    ensures col == "BADTOKEN" <==> !Recognised(c)
  {
    if c == '\r' || c == '\n' then "NEWLINE"
    else if c == '/' then "SLASH"
    else if c == '*' then "STAR"
    else if c == '"' then "QUOTE"
    else if IsSpace(c) then "SPACE"
    else if IsDigit(c) then [c]
    else if IsAlpha(c) then [c]
    else if c == '_' then "UNDERSCORE"
    else if c == '(' then "SY_LPAREN"
    else if c == ')' then "SY_RPAREN"
    else if c == '[' then "SY_LBRACKET"
    else if c == ']' then "SY_RBRACKET"
    else if c == '{' then "SY_LBRACE"
    else if c == '}' then "SY_RBRACE"
    else if c == ';' then "SY_SEMI"
    else if c == '.' then "SY_PERIOD"
    else if c == ',' then "SY_COMMA"
    else if c == '=' then "SY_EQ"
    else if c == '-' then "SY_MINUS"
    else if c == '~' then "SY_NOT"
    else if c in SY_OP then "SY_OP"
    else "BADTOKEN"
  }

  /** The named one-character symbols get their own columns. */
  lemma SymbolColumns(c: char)
    ensures c in SYMBOL_COLUMNS ==> GetCol(c) == SYMBOL_COLUMNS[c]
  {
  }

  /** The operator list covers the operators other than '/' and '*', which were claimed earlier. */
  lemma OperatorColumn(c: char)
    ensures GetCol(c) == "SY_OP" <==> c in SY_OP && c != '/' && c != '*'
  {
  }
}
