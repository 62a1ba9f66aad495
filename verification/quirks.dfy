/** Worked inputs that show how the reader behaves on text a JSON reader
    would take differently.  Each is a fact about the model of the C
    reader, computed step by step. */
module Quirks {
  import opened Nodes
  import opened Builder
  import opened Scanner
  import opened Grammar

  /** The dispatch character is read before the keyword is probed, so a
      keyword right after '[' is compared from its second letter: `[true]`
      reads as an empty list. */
  lemma KeywordNeedsLead()
    ensures ListOf("[true]", 0) == Built([Placeholder], 6)
  {
    var s := "[true]";
    MismatchOnFirst(s, 2, "true");
    MismatchOnFirst(s, 2, "false");
    MismatchOnFirst(s, 2, "null");
    assert Item(s, [Placeholder], 1) == Built([Placeholder], 2);
    assert Items(s, [Placeholder], 5) == Built([Placeholder], 6);
    assert Items(s, [Placeholder], 4) == Built([Placeholder], 6);
    assert Items(s, [Placeholder], 3) == Built([Placeholder], 6);
    assert Items(s, [Placeholder], 2) == Built([Placeholder], 6);
  }

  /** With a blank before it the keyword matches; the first list append
      gets the key "0", and the match also consumes the ']' after it, so the
      list loop ends at the end of the text. */
  lemma KeywordAfterBlank()
    ensures ListOf("[ true]", 0) == Built([Node(Some("0"), Bool(true))], 7)
  {
    var s := "[ true]";
    KeywordAtSlice(s, 2, "true");
    assert s[2..6] == "true";
    assert Item(s, [Placeholder], 1) == Built([Node(Some("0"), Bool(true))], 7);
  }

  /** The same for a member: `"a":null` finds no value, and the value loop
      runs on to the end of the text, past the closing brace. */
  lemma NullNeedsLead()
    ensures Subobj("{\"a\":null}", 0) == Built([Placeholder], 10)
  {
    var s := "{\"a\":null}";
    assert SkipPast(s, 0, '{') == 1;
    assert StringBody(s, 2) == Lexeme("a", 4);
    assert SkipPast(s, 4, ':') == 5;
    NullValueNoLead(s);
    assert Member(s, [Placeholder], '"', 2) == Built([Placeholder], 10);
  }

  /** The value loop of the member above: no character from the 'n' on
      starts a value. */
  lemma NullValueNoLead(s: string)
    requires s == "{\"a\":null}"
    ensures MemberValue(s, [Placeholder], "a", 5) == Built([Placeholder], 10)
  {
    NoValueAt(s, [Placeholder], "a", 9);
    NoValueAt(s, [Placeholder], "a", 8);
    NoValueAt(s, [Placeholder], "a", 7);
    NoValueAt(s, [Placeholder], "a", 6);
    NoValueAt(s, [Placeholder], "a", 5);
    assert MemberValue(s, [Placeholder], "a", 9) == Built([Placeholder], 10);
    assert MemberValue(s, [Placeholder], "a", 8) == Built([Placeholder], 10);
    assert MemberValue(s, [Placeholder], "a", 7) == Built([Placeholder], 10);
    assert MemberValue(s, [Placeholder], "a", 6) == Built([Placeholder], 10);
  }

  /** A character that starts no value and is followed by no keyword letter
      gives no value. */
  lemma NoValueAt(s: string, acc: seq<Node>, key: string, q: nat)
    requires q < |s| && |acc| >= 1 && ProbesKeywords(s[q]) && !IsNumberChar(s[q])
    requires q + 1 < |s| ==> s[q + 1] != 't' && s[q + 1] != 'f' && s[q + 1] != 'n'
    ensures ValueAt(s, acc, key, q) == None
  {
    if q + 1 < |s| {
      MismatchOnFirst(s, q + 1, "true");
      MismatchOnFirst(s, q + 1, "false");
      MismatchOnFirst(s, q + 1, "null");
    }
  }

  /** With a blank before it, `null` is stored as the string "null". */
  lemma NullAfterBlank()
    ensures Subobj("{\"a\": null}", 0) == Built([Node(Some("a"), Str("null"))], 11)
  {
    var s := "{\"a\": null}";
    assert SkipPast(s, 0, '{') == 1;
    assert StringBody(s, 2) == Lexeme("a", 4);
    assert SkipPast(s, 4, ':') == 5;
    NullValueAfterBlank(s);
    assert Member(s, [Placeholder], '"', 2) == Built([Node(Some("a"), Str("null"))], 11);
  }

  /** The value loop of the member above: the blank starts no value, and
      `null` after it matches and takes the '}' with it. */
  lemma NullValueAfterBlank(s: string)
    requires s == "{\"a\": null}"
    ensures MemberValue(s, [Placeholder], "a", 5) == Built([Node(Some("a"), Str("null"))], 11)
  {
    MismatchOnFirst(s, 6, "true");
    MismatchOnFirst(s, 6, "false");
    KeywordAtSlice(s, 6, "null");
    assert s[6..10] == "null";
    assert Matches(s, 6, "null") == Probe(true, 11);
    CTextWhole("a");
    assert KeyedAppend([Placeholder], CText("a"), Str("null")) == [Node(Some("a"), Str("null"))];
    assert ValueAt(s, [Placeholder], "a", 5) == Some(Built([Node(Some("a"), Str("null"))], 11));
  }

  /** The number lexer consumes the character after the number (here ','
      and ']'), and both appends get the key "0": the first reuses the
      placeholder, the second counts zero hops to the old tail. */
  lemma NumbersInList()
    ensures ListOf("[1,2]", 0) == Built([Node(Some("0"), Num("1")), Node(Some("0"), Num("2"))], 5)
  {
    var s := "[1,2]";
    MismatchOnFirst(s, 2, "true");
    MismatchOnFirst(s, 2, "false");
    MismatchOnFirst(s, 2, "null");
    MismatchOnFirst(s, 4, "true");
    MismatchOnFirst(s, 4, "false");
    MismatchOnFirst(s, 4, "null");
    assert DecimalString(0) == "0";
    assert NumberTail(s, 2) == Lexeme([], 3);
    assert NumberTail(s, 4) == Lexeme([], 5);
    assert [s[1]] + NumberTail(s, 2).text == "1";
    assert [s[3]] + NumberTail(s, 4).text == "2";
    assert ListAppend([Placeholder], Num("1")) == [Node(Some("0"), Num("1"))];
    assert Item(s, [Placeholder], 1) == Built([Node(Some("0"), Num("1"))], 3);
    assert Item(s, [Node(Some("0"), Num("1"))], 3) == Built([Node(Some("0"), Num("1")), Node(Some("0"), Num("2"))], 5);
  }

  /** wcsdup copies a key only up to its first NUL: the value loop handed
      the key the lexer read as "k", NUL, "x" stores the member under "k". */
  lemma NulCutsKey(s: string)
    requires s == "\"v\""
    ensures MemberValue(s, [Placeholder], "k\0x", 0) == Built([Node(Some("k"), Str("v"))], 3)
  {
    assert StringBody(s, 1) == Lexeme("v", 3);
    assert CText("k\0x") == "k";
    CTextWhole("v");
    assert KeyedAppend([Placeholder], CText("k\0x"), Str(CText("v"))) == [Node(Some("k"), Str("v"))];
    assert ValueAt(s, [Placeholder], "k\0x", 0) == Some(Built([Node(Some("k"), Str("v"))], 3));
  }
}
