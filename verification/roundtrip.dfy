/** Reading back the text the print calls compose.  For every tree the
    printer can write unambiguously (see PrintableObject), wjson_parse_subobj
    run on RenderObject, the text wjson_print's format calls put together,
    rebuilds exactly that tree, list keys included, and stops right after
    the closing brace, whatever text surrounds it. */
module RoundTrip {
  import opened Nodes
  import opened Builder
  import opened Scanner
  import opened Grammar
  import opened Writer

  /** The text s occurs in input at position p. */
  predicate At(input: string, p: nat, s: string)
  {
    p + |s| <= |input| && forall j | 0 <= j < |s| :: input[p + j] == s[j]
  }

  /** Text the reader reads back whole: no '"', which would end the
      literal, and no NUL, at which wcsdup would cut the copy. */
  predicate Plain(s: string)
  {
    forall j | 0 <= j < |s| :: s[j] != '"' && s[j] != '\0'
  }

  /** Plain text is copied whole by wcsdup. */
  lemma PlainWhole(s: string)
    requires Plain(s)
    ensures CText(s) == s
  {
    CTextWhole(s);
  }

  /** A lexeme the reader collects whole: a non-empty run of number characters. */
  predicate IsLexeme(s: string)
  {
    |s| >= 1 && forall j | 0 <= j < |s| :: IsNumberChar(s[j])
  }

  /** The characters the printer puts between values. */
  predicate Blank(c: char)
  {
    c == '\t' || c == '\n' || c == ','
  }

  /** The first characters of the keywords the reader probes for. */
  predicate KeywordStart(c: char)
  {
    c == 't' || c == 'f' || c == 'n'
  }

  /** A tree the printer writes in a form the reader reads back unchanged:
      containers are not empty, no value is EMPTY or NULL, strings and keys
      hold no '"' and no NUL, numbers are lexemes, no list holds a list directly (the
      reader would tag it OBJECT), and list keys are the ones the list
      appends give ("0", "0", "1", ...). */
  predicate PrintableObject(ns: seq<Node>)
    decreases SizeOfNodes(ns), 2
  {
    |ns| >= 1 && PrintableMembers(ns)
  }

  predicate PrintableMembers(ns: seq<Node>)
    decreases SizeOfNodes(ns), 1
  {
    ns == [] || (PrintableEntry(ns[0], false) && PrintableMembers(ns[1..]))
  }

  predicate PrintableList(xs: seq<Node>)
    decreases SizeOfNodes(xs), 2
  {
    && |xs| >= 1
    && (forall j | 0 <= j < |xs| :: xs[j].key == Some(DecimalString(ListKeyAt(j))))
    && PrintableItems(xs)
  }

  predicate PrintableItems(xs: seq<Node>)
    decreases SizeOfNodes(xs), 1
  {
    xs == [] || (PrintableEntry(xs[0], true) && PrintableItems(xs[1..]))
  }

  /** A member needs a key without '"' or NUL; a list item's key is not printed. */
  predicate PrintableEntry(n: Node, inList: bool)
    decreases SizeOfNode(n), 0
  {
    && (inList || (n.key.Some? && Plain(n.key.value)))
    && PrintableValue(n.value, inList)
  }

  predicate PrintableValue(v: Value, inList: bool)
    decreases SizeOfValue(v), 0
  {
    match v
    case Empty => false
    case Null => false
    case Str(s) => Plain(s)
    case Num(lexeme) => IsLexeme(lexeme)
    case Bool(_) => true
    case Obj(ms) => PrintableObject(ms)
    case List(xs) => !inList && PrintableList(xs)
  }

  /** The chain after the first i entries of ns have been appended to a
      fresh container. */
  function AccAt(ns: seq<Node>, i: nat): (acc: seq<Node>)
    requires i <= |ns|
    ensures |acc| >= 1
  {
    if i == 0 then [Placeholder] else ns[..i]
  }

  lemma AtChar(input: string, p: nat, s: string, j: nat)
    requires At(input, p, s) && j < |s|
    ensures input[p + j] == s[j]
  {
  }

  lemma AtTabs(input: string, p: nat, n: int)
    requires At(input, p, Tabs(n))
    ensures forall j | p <= j < p + |Tabs(n)| :: input[j] == '\t'
  {
    forall j | p <= j < p + |Tabs(n)|
      ensures input[j] == '\t'
    {
      AtChar(input, p, Tabs(n), j - p);
    }
  }

  /** The first character of a printed value: a keyword only for a boolean,
      never a closing bracket. */
  lemma ValueStart(v: Value, ind: int, inList: bool)
    requires PrintableValue(v, inList)
    ensures |RenderValue(v, ind)| >= 1
    ensures !v.Bool? ==> !KeywordStart(RenderValue(v, ind)[0]) && RenderValue(v, ind)[0] != ']'
  {
  }

  lemma AtSplit(input: string, p: nat, a: string, b: string)
    requires At(input, p, a + b)
    ensures At(input, p, a) && At(input, p + |a|, b)
  {
    forall j | 0 <= j < |a|
      ensures input[p + j] == a[j]
    {
      assert (a + b)[j] == a[j];
    }
    forall j | 0 <= j < |b|
      ensures input[p + |a| + j] == b[j]
    {
      assert (a + b)[|a| + j] == b[j];
    }
  }

  /** The string lexer stops at the first '"' and consumes it. */
  lemma {:induction false} StringBodyAt(input: string, p: nat, s: string)
    requires At(input, p, s + "\"") && Plain(s)
    ensures StringBody(input, p) == Lexeme(s, p + |s| + 1)
    decreases |s|
  {
    assert input[p] == (s + "\"")[0];
    if s != [] {
      assert s + "\"" == [s[0]] + (s[1..] + "\"");
      AtSplit(input, p, [s[0]], s[1..] + "\"");
      StringBodyAt(input, p + 1, s[1..]);
      assert [s[0]] + s[1..] == s;
    }
  }

  /** The number lexer stops at the first other character and consumes it. */
  lemma {:induction false} NumberTailAt(input: string, p: nat, s: string, d: char)
    requires At(input, p, s + [d]) && !IsNumberChar(d)
    requires forall j | 0 <= j < |s| :: IsNumberChar(s[j])
    ensures NumberTail(input, p) == Lexeme(s, p + |s| + 1)
    decreases |s|
  {
    assert input[p] == (s + [d])[0];
    if s != [] {
      assert s + [d] == [s[0]] + (s[1..] + [d]);
      AtSplit(input, p, [s[0]], s[1..] + [d]);
      NumberTailAt(input, p + 1, s[1..], d);
      assert [s[0]] + s[1..] == s;
    }
  }

  /** A keyword followed by one more character matches and consumes it. */
  lemma MatchesAt(input: string, p: nat, kw: string)
    requires At(input, p, kw) && p + |kw| < |input|
    ensures Matches(input, p, kw) == Probe(true, p + |kw| + 1)
  {
    assert input[p..p + |kw|] == kw;
    KeywordAtSlice(input, p, kw);
  }

  /** None of the keywords matches where the next character starts none of them. */
  lemma NoKeywordAt(input: string, p: nat)
    requires p <= |input| && (p < |input| ==> !KeywordStart(input[p]))
    ensures !Matches(input, p, "true").matched
    ensures !Matches(input, p, "false").matched
    ensures !Matches(input, p, "null").matched
  {
    if p < |input| {
      MismatchOnFirst(input, p, "true");
      MismatchOnFirst(input, p, "false");
      MismatchOnFirst(input, p, "null");
    }
  }

  /** The member loop passes over characters that are neither '"' nor '}'. */
  lemma {:induction false} MembersSkip(input: string, acc: seq<Node>, q: nat, r: nat)
    requires |acc| >= 1 && q <= r <= |input|
    requires forall j | q <= j < r :: input[j] != '"' && input[j] != '}'
    ensures Members(input, acc, q) == Members(input, acc, r)
    decreases r - q
  {
    if q < r {
      MembersSkip(input, acc, q + 1, r);
    }
  }

  /** The item loop passes over blanks that are not the dispatch character
      of a keyword. */
  lemma {:induction false} ItemsSkip(input: string, acc: seq<Node>, q: nat, r: nat)
    requires |acc| >= 1 && q <= r <= |input|
    requires forall j | q <= j < r :: Blank(input[j])
    requires r < |input| ==> !KeywordStart(input[r])
    ensures Items(input, acc, q) == Items(input, acc, r)
    decreases r - q
  {
    if q < r {
      NoKeywordAt(input, q + 1);
      assert Item(input, acc, q) == Built(acc, q + 1);
      ItemsSkip(input, acc, q + 1, r);
    }
  }

  /** The closing line of a printed object ends the member loop. */
  lemma MembersClose(input: string, acc: seq<Node>, q: nat, ind: int)
    requires |acc| >= 1 && At(input, q, Tabs(ind) + "}")
    ensures Members(input, acc, q) == Built(acc, q + |Tabs(ind)| + 1)
  {
    AtSplit(input, q, Tabs(ind), "}");
    AtTabs(input, q, ind);
    AtChar(input, q + |Tabs(ind)|, "}", 0);
    MembersSkip(input, acc, q, q + |Tabs(ind)|);
  }

  /** The closing line of a printed list ends the item loop. */
  lemma ItemsClose(input: string, acc: seq<Node>, q: nat, ind: int)
    requires |acc| >= 1 && At(input, q, Tabs(ind) + "]")
    ensures Items(input, acc, q) == Built(acc, q + |Tabs(ind)| + 1)
  {
    AtSplit(input, q, Tabs(ind), "]");
    AtTabs(input, q, ind);
    AtChar(input, q + |Tabs(ind)|, "]", 0);
    ItemsSkip(input, acc, q, q + |Tabs(ind)|);
  }

  /** Appending entry i under its own key extends the first i entries. */
  lemma KeyedStep(ns: seq<Node>, i: nat)
    requires i < |ns| && ns[i].key.Some?
    requires i > 0 ==> !ns[i - 1].value.Empty?
    ensures KeyedAppend(AccAt(ns, i), ns[i].key.value, ns[i].value) == AccAt(ns, i + 1)
  {
    if i > 0 {
      assert ns[..i] + [ns[i]] == ns[..i + 1];
    }
  }

  /** A list append gives entry i the key ListKeyAt(i). */
  lemma ListStep(xs: seq<Node>, i: nat)
    requires i < |xs| && xs[i].key == Some(DecimalString(ListKeyAt(i)))
    requires i > 0 ==> !xs[i - 1].value.Empty?
    ensures ListAppend(AccAt(xs, i), xs[i].value) == AccAt(xs, i + 1)
  {
    if i > 0 {
      assert xs[..i] + [xs[i]] == xs[..i + 1];
    }
  }

  /** A character that starts a value in wjson_parse_value. */
  predicate StartsValue(c: char)
  {
    c == '"' || c == '{' || c == '[' || IsNumberChar(c)
  }

  lemma AtExtend(input: string, p: nat, s: string)
    requires At(input, p, s) && p + |s| < |input|
    ensures At(input, p, s + [input[p + |s|]])
  {
  }

  /** A printed key: the string lexer reads it whole, up to its closing quote. */
  lemma KeyAt(input: string, q: nat, key: string)
    requires Plain(key)
    requires At(input, q, "\"") && At(input, q + 1, key + "\"") && At(input, q + |key| + 2, " :")
    ensures input[q] == '"'
    ensures StringBody(input, q + 1) == Lexeme(key, q + |key| + 2)
  {
    AtChar(input, q, "\"", 0);
    StringBodyAt(input, q + 1, key);
  }

  /** The discard loop of wjson_parse_key passes the blank and the colon. */
  lemma ColonAt(input: string, r: nat)
    requires At(input, r, " :")
    ensures SkipPast(input, r, ':') == r + 2
  {
    AtChar(input, r, " :", 0);
    AtChar(input, r, " :", 1);
    assert SkipPast(input, r + 1, ':') == r + 2;
  }

  lemma MembersKey(input: string, acc: seq<Node>, q: nat, key: string, v: nat, after: seq<Node>, e: nat)
    requires |acc| >= 1 && |after| >= 1 && Plain(key) && e <= |input|
    requires At(input, q, "\"") && At(input, q + 1, key + "\"") && At(input, q + |key| + 2, " :")
    requires v == q + |key| + 4 && MemberValue(input, acc, key, v) == Built(after, e)
    ensures Members(input, acc, q) == Members(input, after, e)
  {
    KeyAt(input, q, key);
    ColonAt(input, q + |key| + 2);
    assert Member(input, acc, input[q], q + 1) == Built(after, e);
  }

  /** wjson_parse_value passes over a character that starts no value and
      is not followed by a keyword. */
  lemma ValueSkip(input: string, acc: seq<Node>, key: string, q: nat)
    requires |acc| >= 1 && q < |input| && !StartsValue(input[q])
    requires q + 1 < |input| ==> !KeywordStart(input[q + 1])
    ensures MemberValue(input, acc, key, q) == MemberValue(input, acc, key, q + 1)
  {
    NoKeywordAt(input, q + 1);
    assert ValueAt(input, acc, key, q) == None;
  }

  lemma ValueStrAt(input: string, acc: seq<Node>, key: string, q: nat, s: string, end: nat)
    requires |acc| >= 1 && Plain(s) && At(input, q, "\"" + (s + "\""))
    requires end == q + |s| + 2
    ensures MemberValue(input, acc, key, q) == Built(KeyedAppend(acc, CText(key), Str(s)), end)
  {
    AtSplit(input, q, "\"", s + "\"");
    AtChar(input, q, "\"", 0);
    StringBodyAt(input, q + 1, s);
    PlainWhole(s);
  }

  lemma ValueNumAt(input: string, acc: seq<Node>, key: string, q: nat, lexeme: string, d: char, end: nat)
    requires |acc| >= 1 && IsLexeme(lexeme) && !IsNumberChar(d) && !KeywordStart(d)
    requires At(input, q, lexeme + [d])
    requires end == q + |lexeme| + 1
    ensures MemberValue(input, acc, key, q) == Built(KeyedAppend(acc, CText(key), Num(lexeme)), end)
  {
    assert lexeme + [d] == [lexeme[0]] + (lexeme[1..] + [d]);
    AtSplit(input, q, [lexeme[0]], lexeme[1..] + [d]);
    AtChar(input, q, [lexeme[0]], 0);
    AtChar(input, q + 1, lexeme[1..] + [d], 0);
    NoKeywordAt(input, q + 1);
    NumberTailAt(input, q + 1, lexeme[1..], d);
    assert [lexeme[0]] + lexeme[1..] == lexeme;
    ValueNumHit(input, acc, key, q);
  }

  /** A number character followed by no keyword starts a NUMERICAL value. */
  lemma ValueNumHit(input: string, acc: seq<Node>, key: string, q: nat)
    requires |acc| >= 1 && q + 1 < |input| && IsNumberChar(input[q])
    requires !Matches(input, q + 1, "true").matched && !Matches(input, q + 1, "false").matched
    requires !Matches(input, q + 1, "null").matched
    ensures var num := NumberTail(input, q + 1);
            MemberValue(input, acc, key, q) == Built(KeyedAppend(acc, CText(key), Num([input[q]] + num.text)), num.next)
  {
  }

  lemma ValueBoolAt(input: string, acc: seq<Node>, key: string, q: nat, b: bool, end: nat)
    requires |acc| >= 1 && q < |input| && input[q] != '"' && input[q] != '{' && input[q] != '['
    requires At(input, q + 1, if b then "true" else "false")
    requires q + 1 + |if b then "true" else "false"| < |input|
    requires end == q + |if b then "true" else "false"| + 2
    ensures MemberValue(input, acc, key, q) == Built(KeyedAppend(acc, CText(key), Bool(b)), end)
  {
    var kw := if b then "true" else "false";
    MatchesAt(input, q + 1, kw);
    if !b {
      AtChar(input, q + 1, kw, 0);
      MismatchOnFirst(input, q + 1, "true");
    }
  }

  lemma ItemStrAt(input: string, acc: seq<Node>, q: nat, s: string, end: nat)
    requires |acc| >= 1 && Plain(s) && At(input, q, "\"" + (s + "\""))
    requires end == q + |s| + 2
    ensures Items(input, acc, q) == Items(input, ListAppend(acc, Str(s)), end)
  {
    AtSplit(input, q, "\"", s + "\"");
    AtChar(input, q, "\"", 0);
    StringBodyAt(input, q + 1, s);
    PlainWhole(s);
    assert Item(input, acc, q) == Built(ListAppend(acc, Str(s)), end);
  }

  lemma ItemNumAt(input: string, acc: seq<Node>, q: nat, lexeme: string, d: char, end: nat)
    requires |acc| >= 1 && IsLexeme(lexeme) && !IsNumberChar(d) && !KeywordStart(d)
    requires At(input, q, lexeme + [d])
    requires end == q + |lexeme| + 1
    ensures Items(input, acc, q) == Items(input, ListAppend(acc, Num(lexeme)), end)
  {
    assert lexeme + [d] == [lexeme[0]] + (lexeme[1..] + [d]);
    AtSplit(input, q, [lexeme[0]], lexeme[1..] + [d]);
    AtChar(input, q, [lexeme[0]], 0);
    AtChar(input, q + 1, lexeme[1..] + [d], 0);
    NoKeywordAt(input, q + 1);
    NumberTailAt(input, q + 1, lexeme[1..], d);
    assert [lexeme[0]] + lexeme[1..] == lexeme;
    assert Item(input, acc, q) == Built(ListAppend(acc, Num(lexeme)), end);
  }

  lemma ItemBoolAt(input: string, acc: seq<Node>, q: nat, b: bool, end: nat)
    requires |acc| >= 1 && q < |input| && Blank(input[q])
    requires At(input, q + 1, if b then "true" else "false")
    requires q + 1 + |if b then "true" else "false"| < |input|
    requires end == q + |if b then "true" else "false"| + 2
    ensures Items(input, acc, q) == Items(input, ListAppend(acc, Bool(b)), end)
  {
    var kw := if b then "true" else "false";
    MatchesAt(input, q + 1, kw);
    if !b {
      AtChar(input, q + 1, kw, 0);
      MismatchOnFirst(input, q + 1, "true");
    }
    assert Item(input, acc, q) == Built(ListAppend(acc, Bool(b)), q + |kw| + 2);
  }

  lemma ItemObjAt(input: string, acc: seq<Node>, q: nat)
    requires |acc| >= 1 && q < |input| && input[q] == '{'
    ensures var sub := Subobj(input, q);
            Items(input, acc, q) == Items(input, ListAppend(acc, Obj(sub.nodes)), sub.next)
  {
    assert Item(input, acc, q) == Built(ListAppend(acc, Obj(Subobj(input, q).nodes)), Subobj(input, q).next);
  }

  /** The blank before a printed member value, then a string. */
  lemma StrInObject(input: string, acc: seq<Node>, key: string, q: nat, s: string, end: nat)
    requires |acc| >= 1 && Plain(s) && q < |input| && !StartsValue(input[q])
    requires At(input, q + 1, "\"" + (s + "\"")) && end == q + |s| + 3
    ensures MemberValue(input, acc, key, q) == Built(KeyedAppend(acc, CText(key), Str(s)), end)
  {
    AtChar(input, q + 1, "\"" + (s + "\""), 0);
    ValueStrAt(input, acc, key, q + 1, s, end);
    ValueSkip(input, acc, key, q);
  }

  /** The blank before a printed member value, then a number and the
      character after it. */
  lemma NumInObject(input: string, acc: seq<Node>, key: string, q: nat, lexeme: string, d: char, end: nat)
    requires |acc| >= 1 && IsLexeme(lexeme) && !IsNumberChar(d) && !KeywordStart(d)
    requires q < |input| && !StartsValue(input[q])
    requires At(input, q + 1, lexeme + [d]) && end == q + |lexeme| + 2
    ensures MemberValue(input, acc, key, q) == Built(KeyedAppend(acc, CText(key), Num(lexeme)), end)
  {
    AtChar(input, q + 1, lexeme + [d], 0);
    ValueNumAt(input, acc, key, q + 1, lexeme, d, end);
    ValueSkip(input, acc, key, q);
  }

  /** The blank before a printed member value, then a nested container the
      reader reads back as `v`. */
  lemma NestedInObject(input: string, acc: seq<Node>, key: string, q: nat, v: Value, end: nat)
    requires |acc| >= 1 && q + 1 < |input| && !StartsValue(input[q])
    requires (v.Obj? && input[q + 1] == '{' && Subobj(input, q + 1) == Built(v.members, end))
          || (v.List? && input[q + 1] == '[' && ListOf(input, q + 1) == Built(v.items, end))
    ensures MemberValue(input, acc, key, q) == Built(KeyedAppend(acc, CText(key), v), end)
  {
    assert ValueAt(input, acc, key, q + 1) == Some(Built(KeyedAppend(acc, CText(key), v), end));
    ValueSkip(input, acc, key, q);
  }

  /** The tab before a printed list item, then a string. */
  lemma StrInList(input: string, acc: seq<Node>, q: nat, s: string, end: nat)
    requires |acc| >= 1 && Plain(s) && q < |input| && Blank(input[q])
    requires At(input, q + 1, "\"" + (s + "\"")) && end == q + |s| + 3
    ensures Items(input, acc, q) == Items(input, ListAppend(acc, Str(s)), end)
  {
    AtChar(input, q + 1, "\"" + (s + "\""), 0);
    ItemStrAt(input, acc, q + 1, s, end);
    ItemsSkip(input, acc, q, q + 1);
  }

  /** The tab before a printed list item, then a number and the character
      after it. */
  lemma NumInList(input: string, acc: seq<Node>, q: nat, lexeme: string, d: char, end: nat)
    requires |acc| >= 1 && IsLexeme(lexeme) && !IsNumberChar(d) && !KeywordStart(d)
    requires q < |input| && Blank(input[q])
    requires At(input, q + 1, lexeme + [d]) && end == q + |lexeme| + 2
    ensures Items(input, acc, q) == Items(input, ListAppend(acc, Num(lexeme)), end)
  {
    AtChar(input, q + 1, lexeme + [d], 0);
    ItemNumAt(input, acc, q + 1, lexeme, d, end);
    ItemsSkip(input, acc, q, q + 1);
  }

  /** The tab before a printed list item, then a nested object. */
  lemma ObjInList(input: string, acc: seq<Node>, q: nat, ms: seq<Node>, end: nat)
    requires |acc| >= 1 && q + 1 < |input| && Blank(input[q]) && input[q + 1] == '{'
    requires Subobj(input, q + 1) == Built(ms, end)
    ensures Items(input, acc, q) == Items(input, ListAppend(acc, Obj(ms)), end)
  {
    ItemObjAt(input, acc, q + 1);
    ItemsSkip(input, acc, q, q + 1);
  }

  /** wjson_parse_subobj on the text the print calls compose for an object
      (RenderObject) yields that object and stops after its closing brace. */
  lemma ObjectBack(input: string, p: nat, ns: seq<Node>, ind: int)
    requires ind >= 0 && PrintableObject(ns)
    requires At(input, p, RenderObject(ns, ind))
    ensures Subobj(input, p) == Built(ns, p + |RenderObject(ns, ind)|)
    decreases SizeOfNodes(ns), 3, 0
  {
    var body := RenderEntries(ns, ind, true) + (Tabs(ind) + "}");
    assert RenderObject(ns, ind) == "{\n" + body;
    AtSplit(input, p, "{\n", body);
    AtChar(input, p, "{\n", 0);
    AtChar(input, p, "{\n", 1);
    assert SkipPast(input, p, '{') == p + 1;
    MembersSkip(input, [Placeholder], p + 1, p + 2);
    assert ns[0..] == ns;
    MembersBack(input, ns, 0, p + 2, ind, p + |RenderObject(ns, ind)|);
  }

  /** The member loop on printed entries i.. of an object. */
  lemma MembersBack(input: string, ns: seq<Node>, i: nat, q: nat, ind: int, end: nat)
    requires ind >= 0 && i <= |ns| && |ns| >= 1
    requires i > 0 ==> !ns[i - 1].value.Empty?
    requires PrintableMembers(ns[i..])
    requires At(input, q, RenderEntries(ns[i..], ind, true) + (Tabs(ind) + "}"))
    requires end == q + |RenderEntries(ns[i..], ind, true)| + |Tabs(ind)| + 1
    ensures Members(input, AccAt(ns, i), q) == Built(ns, end)
    decreases SizeOfNodes(ns[i..]), 2, 0
  {
    if i == |ns| {
      MembersEnd(input, ns, i, q, ind, end);
    } else {
      var e := q + |RenderEntry(ns[i], ind, true, i + 1 < |ns|)|;
      MembersStep(input, ns, i, q, ind, e);
      MembersBack(input, ns, i + 1, e, ind, end);
    }
  }

  /** After the last printed entry, the closing line ends the member loop. */
  lemma MembersEnd(input: string, ns: seq<Node>, i: nat, q: nat, ind: int, end: nat)
    requires i == |ns| >= 1
    requires At(input, q, RenderEntries(ns[i..], ind, true) + (Tabs(ind) + "}"))
    requires end == q + |RenderEntries(ns[i..], ind, true)| + |Tabs(ind)| + 1
    ensures Members(input, AccAt(ns, i), q) == Built(ns, end)
  {
    assert RenderEntries(ns[i..], ind, true) + (Tabs(ind) + "}") == Tabs(ind) + "}";
    MembersClose(input, AccAt(ns, i), q, ind);
    assert ns[..i] == ns;
  }

  /** One round of the member loop reads printed entry i and stops at the
      next line. */
  lemma MembersStep(input: string, ns: seq<Node>, i: nat, q: nat, ind: int, e: nat)
    requires ind >= 0 && i < |ns|
    requires i > 0 ==> !ns[i - 1].value.Empty?
    requires PrintableMembers(ns[i..])
    requires At(input, q, RenderEntries(ns[i..], ind, true) + (Tabs(ind) + "}"))
    requires e == q + |RenderEntry(ns[i], ind, true, i + 1 < |ns|)|
    ensures Members(input, AccAt(ns, i), q) == Members(input, AccAt(ns, i + 1), e)
    ensures !ns[i].value.Empty? && PrintableMembers(ns[i + 1..])
    ensures At(input, e, RenderEntries(ns[i + 1..], ind, true) + (Tabs(ind) + "}"))
    ensures |RenderEntries(ns[i..], ind, true)| == e - q + |RenderEntries(ns[i + 1..], ind, true)|
    decreases SizeOfNodes(ns[i..]), 1, 1
  {
    EntriesSplit(input, q, ns, i, ind, true, Tabs(ind) + "}");
    MembersFrom(ns, i);
    EntryInObject(input, AccAt(ns, i), q, ns[i], ind, i + 1 < |ns|, e);
    KeyedStep(ns, i);
  }

  /** A printed chain from entry i on: the line of entry i, then the rest. */
  lemma EntriesSplit(input: string, q: nat, ns: seq<Node>, i: nat, ind: int, keyed: bool, closing: string)
    requires i < |ns| && At(input, q, RenderEntries(ns[i..], ind, keyed) + closing)
    ensures At(input, q, RenderEntry(ns[i], ind, keyed, i + 1 < |ns|))
    ensures At(input, q + |RenderEntry(ns[i], ind, keyed, i + 1 < |ns|)|, RenderEntries(ns[i + 1..], ind, keyed) + closing)
    ensures |RenderEntries(ns[i..], ind, keyed)|
         == |RenderEntry(ns[i], ind, keyed, i + 1 < |ns|)| + |RenderEntries(ns[i + 1..], ind, keyed)|
  {
    var entry := RenderEntry(ns[i], ind, keyed, i + 1 < |ns|);
    var rest := RenderEntries(ns[i + 1..], ind, keyed) + closing;
    EntriesFrom(ns, i, ind, keyed);
    assert RenderEntries(ns[i..], ind, keyed) + closing == entry + rest;
    AtSplit(input, q, entry, rest);
  }

  lemma MembersFrom(ns: seq<Node>, i: nat)
    requires i < |ns| && PrintableMembers(ns[i..])
    ensures PrintableEntry(ns[i], false) && PrintableMembers(ns[i + 1..])
  {
    assert ns[i..][1..] == ns[i + 1..];
  }

  lemma ItemsFrom(xs: seq<Node>, i: nat)
    requires i < |xs| && PrintableItems(xs[i..])
    ensures PrintableEntry(xs[i], true) && PrintableItems(xs[i + 1..])
  {
    assert xs[i..][1..] == xs[i + 1..];
  }

  /** What follows a printed list line is a tab or the closing bracket. */
  lemma ListRestStart(input: string, p: nat, xs: seq<Node>, k: nat, ind: int)
    requires k <= |xs| && ind >= 0 && At(input, p, RenderEntries(xs[k..], ind, false) + (Tabs(ind) + "]"))
    ensures p < |input| && (input[p] == '\t' || input[p] == ']')
  {
    var s := RenderEntries(xs[k..], ind, false) + (Tabs(ind) + "]");
    if k < |xs| {
      EntriesFrom(xs, k, ind, false);
      assert s[0] == Tabs(ind + 1)[0];
    } else {
      assert s == Tabs(ind) + "]";
    }
    AtChar(input, p, s, 0);
  }

  /** The layout of a printed member line: tabs, the quoted key, " :", and
      the blank-prefixed value followed by the line ending. */
  lemma MemberLayout(input: string, q: nat, n: Node, ind: int, more: bool)
    requires ind >= 0 && PrintableEntry(n, false)
    requires At(input, q, RenderEntry(n, ind, true, more))
    ensures var key := n.key.value;
            var q1 := q + ind + 1;
            var value := RenderValue(n.value, ind + 1);
            var tail := (if more then "," else []) + "\n";
            && At(input, q, Tabs(ind + 1) + "\"" + (key + "\"") + " :")
            && At(input, q1 + |key| + 4, " " + value + tail)
            && |RenderEntry(n, ind, true, more)| == ind + 1 + |key| + 5 + |value| + |tail|
  {
    var key := n.key.value;
    var value := RenderValue(n.value, ind + 1);
    var tail := (if more then "," else []) + "\n";
    var head := Tabs(ind + 1) + "\"" + (key + "\"") + " :";
    MemberText(n, ind, more);
    AtSplit(input, q, head, " " + value + tail);
  }

  /** A member line is its head up to " :" and the blank-prefixed rest. */
  lemma MemberText(n: Node, ind: int, more: bool)
    requires ind >= 0 && n.key.Some?
    ensures var head := Tabs(ind + 1) + "\"" + (n.key.value + "\"") + " :";
            && |head| == ind + 1 + |n.key.value| + 4
            && RenderEntry(n, ind, true, more)
               == head + (" " + RenderValue(n.value, ind + 1) + ((if more then "," else []) + "\n"))
  {
  }

  /** The start of a printed member line: k tabs, the quoted key and " :". */
  lemma KeyLayout(input: string, q: nat, k: nat, key: string)
    requires At(input, q, Tabs(k) + "\"" + (key + "\"") + " :")
    ensures forall j | q <= j < q + k :: input[j] == '\t'
    ensures At(input, q + k, "\"") && At(input, q + k + 1, key + "\"") && At(input, q + k + |key| + 2, " :")
  {
    AtSplit(input, q, Tabs(k) + "\"" + (key + "\""), " :");
    AtSplit(input, q, Tabs(k) + "\"", key + "\"");
    AtSplit(input, q, Tabs(k), "\"");
    AtTabs(input, q, k);
  }

  /** The member loop over one line: k tabs, a quoted key, " :", the value
      wjson_parse_value reads, and blanks up to the next line. */
  lemma MemberLine(input: string, acc: seq<Node>, q: nat, k: nat, key: string, v: nat, after: seq<Node>, e: nat, end: nat)
    requires |acc| >= 1 && |after| >= 1 && Plain(key)
    requires At(input, q + k, "\"") && At(input, q + k + 1, key + "\"") && At(input, q + k + |key| + 2, " :")
    requires forall j | q <= j < q + k :: input[j] == '\t'
    requires v == q + k + |key| + 4 && MemberValue(input, acc, key, v) == Built(after, e)
    requires e <= end <= |input| && forall j | e <= j < end :: Blank(input[j])
    ensures Members(input, acc, q) == Members(input, after, end)
  {
    assert q + k + |key| + 4 <= |input|;
    MembersSkip(input, acc, q, q + k);
    MembersKey(input, acc, q + k, key, v, after, e);
    MembersSkip(input, after, e, end);
  }

  /** One printed member line, read by one round of the member loop and the
      characters it leaves for the next round. */
  lemma EntryInObject(input: string, acc: seq<Node>, q: nat, n: Node, ind: int, more: bool, end: nat)
    requires |acc| >= 1 && ind >= 0
    requires PrintableEntry(n, false)
    requires At(input, q, RenderEntry(n, ind, true, more)) && end == q + |RenderEntry(n, ind, true, more)|
    ensures Members(input, acc, q) == Members(input, KeyedAppend(acc, n.key.value, n.value), end)
    decreases SizeOfNode(n), 1, 0
  {
    var key := n.key.value;
    var value := RenderValue(n.value, ind + 1);
    var tail := (if more then "," else []) + "\n";
    MemberLayout(input, q, n, ind, more);
    KeyLayout(input, q, ind + 1, key);
    var q2 := q + ind + 1 + |key| + 4;
    var e := q2 + 1 + |value| + (if n.value.Bool? || n.value.Num? then 1 else 0);
    LineEnd(input, q2, " ", value, more, e, end);
    ValueInObject(input, acc, key, q2, n.value, ind + 1, tail, e);
    PlainWhole(key);
    MemberLine(input, acc, q, ind + 1, key, q2, KeyedAppend(acc, key, n.value), e, end);
  }

  /** The characters after a printed value, up to the next line, are blank. */
  lemma LineEnd(input: string, p: nat, lead: string, value: string, more: bool, e: nat, end: nat)
    requires |lead| == 1 && At(input, p, lead + value + ((if more then "," else []) + "\n"))
    requires p + 1 + |value| <= e <= p + 2 + |value|
    requires end == p + 1 + |value| + |(if more then "," else []) + "\n"|
    ensures input[p] == lead[0] && e <= end && forall j | e <= j < end :: Blank(input[j])
  {
    var tail := (if more then "," else []) + "\n";
    AtSplit(input, p, lead + value, tail);
    AtAll(input, p + 1 + |value|, tail);
    AtChar(input, p, lead + value + tail, 0);
  }

  /** Every character of a line ending is neither '"' nor '}', and blank. */
  lemma AtAll(input: string, p: nat, tail: string)
    requires At(input, p, tail) && forall j | 0 <= j < |tail| :: Blank(tail[j])
    ensures forall j | p <= j < p + |tail| :: Blank(input[j])
  {
    forall j | p <= j < p + |tail|
      ensures Blank(input[j])
    {
      AtChar(input, p, tail, j - p);
    }
  }

  /** The layout of a printed value after its one-character lead (the
      blank after " :" or the tab of a list line) and before the rest of the
      line, as each kind of value prints. */
  lemma ValueLayout(input: string, q: nat, lead: string, v: Value, ind: int, t: string, inList: bool)
    requires |lead| == 1 && ind >= 0 && PrintableValue(v, inList)
    requires At(input, q, lead + RenderValue(v, ind) + t) && |t| >= 1 && Blank(t[0])
    ensures q + 1 + |RenderValue(v, ind)| < |input| && input[q] == lead[0]
    ensures v.Bool? ==> var kw := if v.flag then "true" else "false";
                        At(input, q + 1, kw) && RenderValue(v, ind) == kw
    ensures v.Str? ==> At(input, q + 1, "\"" + (v.text + "\"")) && |RenderValue(v, ind)| == |v.text| + 2
    ensures v.Num? ==> At(input, q + 1, v.lexeme + [t[0]]) && RenderValue(v, ind) == v.lexeme
                       && !IsNumberChar(t[0]) && !KeywordStart(t[0])
    ensures v.Obj? ==> input[q + 1] == '{' && At(input, q + 1, RenderObject(v.members, ind))
                       && RenderValue(v, ind) == RenderObject(v.members, ind)
    ensures v.List? ==> input[q + 1] == '[' && At(input, q + 1, RenderList(v.items, ind))
                        && RenderValue(v, ind) == RenderList(v.items, ind)
  {
    var text := RenderValue(v, ind);
    AtSplit(input, q, lead + text, t);
    AtSplit(input, q, lead, text);
    AtChar(input, q, lead, 0);
    AtChar(input, q + 1 + |text|, t, 0);
    if v.Str? {
      assert text == "\"" + (v.text + "\"");
    } else if v.Num? {
      AtExtend(input, q + 1, text);
    } else if v.Obj? || v.List? {
      AtChar(input, q + 1, text, 0);
    }
  }

  /** wjson_parse_value from the blank before a value of each printable
      kind, given where the value's text lies. */
  lemma ValueCases(input: string, acc: seq<Node>, key: string, q: nat, v: Value, d: char, end: nat)
    requires |acc| >= 1 && q + 1 < |input| && !StartsValue(input[q]) && PrintableValue(v, false)
    requires v.Bool? ==> var kw := if v.flag then "true" else "false";
                         At(input, q + 1, kw) && q + 1 + |kw| < |input| && end == q + |kw| + 2
    requires v.Str? ==> At(input, q + 1, "\"" + (v.text + "\"")) && end == q + |v.text| + 3
    requires v.Num? ==> At(input, q + 1, v.lexeme + [d]) && !IsNumberChar(d) && !KeywordStart(d)
                        && end == q + |v.lexeme| + 2
    requires v.Obj? ==> input[q + 1] == '{' && Subobj(input, q + 1) == Built(v.members, end)
    requires v.List? ==> input[q + 1] == '[' && ListOf(input, q + 1) == Built(v.items, end)
    ensures MemberValue(input, acc, key, q) == Built(KeyedAppend(acc, CText(key), v), end)
  {
    if v.Bool? {
      ValueBoolAt(input, acc, key, q, v.flag, end);
    } else if v.Str? {
      StrInObject(input, acc, key, q, v.text, end);
    } else if v.Num? {
      NumInObject(input, acc, key, q, v.lexeme, d, end);
    } else {
      NestedInObject(input, acc, key, q, v, end);
    }
  }

  /** The item loop from the tab before an item of each printable kind,
      given where the item's text lies. */
  lemma ItemCases(input: string, acc: seq<Node>, q: nat, v: Value, d: char, end: nat)
    requires |acc| >= 1 && q + 1 < |input| && Blank(input[q]) && PrintableValue(v, true)
    requires v.Bool? ==> var kw := if v.flag then "true" else "false";
                         At(input, q + 1, kw) && q + 1 + |kw| < |input| && end == q + |kw| + 2
    requires v.Str? ==> At(input, q + 1, "\"" + (v.text + "\"")) && end == q + |v.text| + 3
    requires v.Num? ==> At(input, q + 1, v.lexeme + [d]) && !IsNumberChar(d) && !KeywordStart(d)
                        && end == q + |v.lexeme| + 2
    requires v.Obj? ==> input[q + 1] == '{' && Subobj(input, q + 1) == Built(v.members, end)
    ensures Items(input, acc, q) == Items(input, ListAppend(acc, v), end)
  {
    if v.Bool? {
      ItemBoolAt(input, acc, q, v.flag, end);
    } else if v.Str? {
      StrInList(input, acc, q, v.text, end);
    } else if v.Num? {
      NumInList(input, acc, q, v.lexeme, d, end);
    } else {
      ObjInList(input, acc, q, v.members, end);
    }
  }

  /** wjson_parse_value on the blank the printer writes after " :" and the
      value that follows: the blank is the dispatch character of a keyword,
      and skipped otherwise. */
  lemma ValueInObject(input: string, acc: seq<Node>, key: string, q: nat, v: Value, ind: int, t: string, end: nat)
    requires |acc| >= 1 && ind >= 0 && PrintableValue(v, false)
    requires At(input, q, " " + RenderValue(v, ind) + t) && |t| >= 1 && Blank(t[0])
    requires end == q + 1 + |RenderValue(v, ind)| + (if v.Bool? || v.Num? then 1 else 0)
    ensures MemberValue(input, acc, key, q) == Built(KeyedAppend(acc, CText(key), v), end)
    decreases SizeOfValue(v), 0, 0
  {
    ValueLayout(input, q, " ", v, ind, t, false);
    if v.Obj? {
      ObjectBack(input, q + 1, v.members, ind);
    } else if v.List? {
      ListBack(input, q + 1, v.items, ind);
    }
    ValueCases(input, acc, key, q, v, t[0], end);
  }

  /** wjson_parse_list on a printed list yields that list and stops after
      its closing bracket. */
  lemma ListBack(input: string, p: nat, xs: seq<Node>, ind: int)
    requires ind >= 0 && PrintableList(xs)
    requires At(input, p, RenderList(xs, ind))
    ensures ListOf(input, p) == Built(xs, p + |RenderList(xs, ind)|)
    decreases SizeOfNodes(xs), 3, 0
  {
    var body := RenderEntries(xs, ind, false) + (Tabs(ind) + "]");
    assert RenderList(xs, ind) == "[\n" + body;
    AtSplit(input, p, "[\n", body);
    assert xs[0..] == xs;
    EntriesFrom(xs, 0, ind, false);
    assert body[0] == Tabs(ind + 1)[0];
    AtChar(input, p, "[\n", 0);
    AtChar(input, p, "[\n", 1);
    AtChar(input, p + 2, body, 0);
    ItemsSkip(input, [Placeholder], p + 1, p + 2);
    ItemsBack(input, xs, 0, p + 2, ind, p + |RenderList(xs, ind)|);
  }

  /** The item loop on printed entries i.. of a list. */
  lemma ItemsBack(input: string, xs: seq<Node>, i: nat, q: nat, ind: int, end: nat)
    requires ind >= 0 && i <= |xs| && |xs| >= 1
    requires forall j | 0 <= j < |xs| :: xs[j].key == Some(DecimalString(ListKeyAt(j)))
    requires i > 0 ==> !xs[i - 1].value.Empty?
    requires PrintableItems(xs[i..])
    requires At(input, q, RenderEntries(xs[i..], ind, false) + (Tabs(ind) + "]"))
    requires end == q + |RenderEntries(xs[i..], ind, false)| + |Tabs(ind)| + 1
    ensures Items(input, AccAt(xs, i), q) == Built(xs, end)
    decreases SizeOfNodes(xs[i..]), 2, 0
  {
    if i == |xs| {
      ItemsEnd(input, xs, i, q, ind, end);
    } else {
      var e := q + |RenderEntry(xs[i], ind, false, i + 1 < |xs|)|;
      ItemsStep(input, xs, i, q, ind, e);
      ItemsBack(input, xs, i + 1, e, ind, end);
    }
  }

  /** After the last printed item, the closing line ends the item loop. */
  lemma ItemsEnd(input: string, xs: seq<Node>, i: nat, q: nat, ind: int, end: nat)
    requires i == |xs| >= 1
    requires At(input, q, RenderEntries(xs[i..], ind, false) + (Tabs(ind) + "]"))
    requires end == q + |RenderEntries(xs[i..], ind, false)| + |Tabs(ind)| + 1
    ensures Items(input, AccAt(xs, i), q) == Built(xs, end)
  {
    assert RenderEntries(xs[i..], ind, false) + (Tabs(ind) + "]") == Tabs(ind) + "]";
    ItemsClose(input, AccAt(xs, i), q, ind);
    assert xs[..i] == xs;
  }

  /** Rounds of the item loop read printed item i and stop at the next line. */
  lemma ItemsStep(input: string, xs: seq<Node>, i: nat, q: nat, ind: int, e: nat)
    requires ind >= 0 && i < |xs|
    requires xs[i].key == Some(DecimalString(ListKeyAt(i)))
    requires i > 0 ==> !xs[i - 1].value.Empty?
    requires PrintableItems(xs[i..])
    requires At(input, q, RenderEntries(xs[i..], ind, false) + (Tabs(ind) + "]"))
    requires e == q + |RenderEntry(xs[i], ind, false, i + 1 < |xs|)|
    ensures Items(input, AccAt(xs, i), q) == Items(input, AccAt(xs, i + 1), e)
    ensures !xs[i].value.Empty? && PrintableItems(xs[i + 1..])
    ensures At(input, e, RenderEntries(xs[i + 1..], ind, false) + (Tabs(ind) + "]"))
    ensures |RenderEntries(xs[i..], ind, false)| == e - q + |RenderEntries(xs[i + 1..], ind, false)|
    decreases SizeOfNodes(xs[i..]), 1, 1
  {
    EntriesSplit(input, q, xs, i, ind, false, Tabs(ind) + "]");
    ListRestStart(input, e, xs, i + 1, ind);
    ItemsFrom(xs, i);
    EntryInList(input, AccAt(xs, i), q, xs[i], ind, i + 1 < |xs|, e);
    ListStep(xs, i);
  }

  /** The layout of a printed list line: tabs up to the container's level,
      one more tab, the value, and the line ending. */
  lemma ItemLayout(input: string, q: nat, n: Node, ind: int, more: bool)
    requires ind >= 0 && At(input, q, RenderEntry(n, ind, false, more))
    ensures var value := RenderValue(n.value, ind + 1);
            var tail := (if more then "," else []) + "\n";
            && (forall j | q <= j < q + ind :: Blank(input[j]))
            && At(input, q + ind, "\t" + value + tail)
            && |RenderEntry(n, ind, false, more)| == ind + 1 + |value| + |tail|
  {
    var value := RenderValue(n.value, ind + 1);
    var tail := (if more then "," else []) + "\n";
    assert Tabs(ind + 1) == Tabs(ind) + "\t";
    assert RenderEntry(n, ind, false, more) == Tabs(ind) + ("\t" + value + tail);
    AtSplit(input, q, Tabs(ind), "\t" + value + tail);
    AtTabs(input, q, ind);
  }

  /** The item loop over one line: blanks, the item read from the last
      blank, and blanks up to the next line. */
  lemma ItemLine(input: string, acc: seq<Node>, q: nat, k: nat, v: nat, after: seq<Node>, e: nat, end: nat)
    requires |acc| >= 1 && |after| >= 1 && v == q + k < |input| && input[v] == '\t'
    requires forall j | q <= j < v :: Blank(input[j])
    requires e <= end <= |input| && forall j | e <= j < end :: Blank(input[j])
    requires end < |input| ==> !KeywordStart(input[end])
    requires Items(input, acc, v) == Items(input, after, e)
    ensures Items(input, acc, q) == Items(input, after, end)
  {
    ItemsSkip(input, acc, q, v);
    ItemsSkip(input, after, e, end);
  }

  /** One printed list line, read by rounds of the item loop. */
  lemma EntryInList(input: string, acc: seq<Node>, q: nat, n: Node, ind: int, more: bool, end: nat)
    requires |acc| >= 1 && ind >= 0 && PrintableEntry(n, true)
    requires At(input, q, RenderEntry(n, ind, false, more)) && end == q + |RenderEntry(n, ind, false, more)|
    requires end < |input| ==> !KeywordStart(input[end])
    ensures Items(input, acc, q) == Items(input, ListAppend(acc, n.value), end)
    decreases SizeOfNode(n), 1, 0
  {
    var value := RenderValue(n.value, ind + 1);
    var tail := (if more then "," else []) + "\n";
    ItemLayout(input, q, n, ind, more);
    var q1 := q + ind;
    var e := q1 + 1 + |value| + (if n.value.Bool? || n.value.Num? then 1 else 0);
    LineEnd(input, q1, "\t", value, more, e, end);
    ValueInList(input, acc, q1, n.value, ind + 1, tail, e);
    ItemLine(input, acc, q, ind, q1, ListAppend(acc, n.value), e, end);
  }

  /** The item loop on the tab before a printed item and the item: the tab
      is the dispatch character of a keyword, and skipped otherwise. */
  lemma ValueInList(input: string, acc: seq<Node>, q: nat, v: Value, ind: int, t: string, end: nat)
    requires |acc| >= 1 && ind >= 0 && PrintableValue(v, true)
    requires At(input, q, "\t" + RenderValue(v, ind) + t) && |t| >= 1 && Blank(t[0])
    requires end == q + 1 + |RenderValue(v, ind)| + (if v.Bool? || v.Num? then 1 else 0)
    ensures Items(input, acc, q) == Items(input, ListAppend(acc, v), end)
    decreases SizeOfValue(v), 0, 0
  {
    ValueLayout(input, q, "\t", v, ind, t, true);
    if v.Obj? {
      ObjectBack(input, q + 1, v.members, ind);
    }
    ItemCases(input, acc, q, v, t[0], end);
  }

  /** The round trip: reading the text the print calls compose
      (RenderObject) for a printable object gives back that object,
      consuming the whole text. */
  lemma ReadPrinted(ns: seq<Node>, ind: int)
    requires ind >= 0 && PrintableObject(ns)
    ensures Subobj(RenderObject(ns, ind), 0) == Built(ns, |RenderObject(ns, ind)|)
  {
    var text := RenderObject(ns, ind);
    assert At(text, 0, text);
    ObjectBack(text, 0, ns, ind);
  }
}
