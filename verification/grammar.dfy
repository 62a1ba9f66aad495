/** The recursive-descent reader as functions of the input text: each
    production takes the chain built so far and a stream position and gives
    the chain after its appends and the position after what it read.  The
    functions follow the C routines branch for branch, loops as tail
    recursion; module Reader runs the same reader as loops over a mutable
    container and is proved to agree with these functions. */
module Grammar {
  import opened Nodes
  import opened Builder
  import opened Scanner

  /** A chain under construction and the stream position reached. */
  datatype Built = Built(nodes: seq<Node>, next: nat)

  /** wjson_parse_subobj: discard characters up to and including '{', then
      read members until '}' or the end of the text. */
  function Subobj(input: string, p: nat): (r: Built)
    requires p <= |input|
    ensures p <= r.next <= |input| && (p < |input| ==> p < r.next)
    ensures |r.nodes| >= 1
    decreases |input| - p, 1
  {
    Members(input, [Placeholder], SkipPast(input, p, '{'))
  }

  /** The member loop of wjson_parse_subobj: every character read other
      than '}' is handed to wjson_parse_key. */
  function Members(input: string, acc: seq<Node>, q: nat): (r: Built)
    requires q <= |input| && |acc| >= 1
    ensures q <= r.next <= |input|
    ensures |r.nodes| >= 1
    decreases |input| - q, 0
  {
    if q == |input| then Built(acc, q)
    else if input[q] == '}' then Built(acc, q + 1)
    else
      var m := Member(input, acc, input[q], q + 1);
      Members(input, m.nodes, m.next)
  }

  /** wjson_parse_key: c is the character already read; only '"' starts a
      member.  The key runs to the next '"', then characters are discarded
      up to and including ':', and one value is read. */
  function Member(input: string, acc: seq<Node>, c: char, q: nat): (r: Built)
    requires q <= |input| && |acc| >= 1
    ensures q <= r.next <= |input|
    ensures |r.nodes| >= 1
    decreases |input| - q, 4
  {
    if c != '"' then Built(acc, q)
    else
      var key := StringBody(input, q);
      MemberValue(input, acc, key.text, SkipPast(input, key.next, ':'))
  }

  /** wjson_parse_value: read characters until one starts a value, append
      that one value under `key` and stop. */
  function MemberValue(input: string, acc: seq<Node>, key: string, q: nat): (r: Built)
    requires q <= |input| && |acc| >= 1
    ensures q <= r.next <= |input|
    ensures |r.nodes| >= 1
    ensures r.nodes == acc || r.nodes == KeyedAppend(acc, CText(key), r.nodes[|r.nodes| - 1].value)
    decreases |input| - q, 3
  {
    if q == |input| then Built(acc, q)
    else
      var v := ValueAt(input, acc, key, q);
      if v.Some? then v.value else MemberValue(input, acc, key, q + 1)
  }

  /** One round of the loop of wjson_parse_value, from the character at q:
      the appended value, or None when that character starts none.  The
      character read is the dispatch character; the keywords are tried on
      the characters after it.  `null` is stored as the string "null". */
  function ValueAt(input: string, acc: seq<Node>, key: string, q: nat): (r: Option<Built>)
    requires q < |input| && |acc| >= 1
    ensures r.Some? ==> q < r.value.next <= |input| && |r.value.nodes| >= 1
    ensures r.Some? ==> r.value.nodes == KeyedAppend(acc, CText(key), r.value.nodes[|r.value.nodes| - 1].value)
    decreases |input| - q, 2
  {
    var c := input[q];
    if c == '"' then
      var s := StringBody(input, q + 1);
      Some(Built(KeyedAppend(acc, CText(key), Str(CText(s.text))), s.next))
    else if c == '{' then
      var sub := Subobj(input, q);
      Some(Built(KeyedAppend(acc, CText(key), Obj(sub.nodes)), sub.next))
    else if c == '[' then
      var l := ListOf(input, q);
      Some(Built(KeyedAppend(acc, CText(key), List(l.nodes)), l.next))
    else
      var t := Matches(input, q + 1, "true");
      var f := Matches(input, q + 1, "false");
      var n := Matches(input, q + 1, "null");
      if t.matched then Some(Built(KeyedAppend(acc, CText(key), Bool(true)), t.next))
      else if f.matched then Some(Built(KeyedAppend(acc, CText(key), Bool(false)), f.next))
      else if n.matched then Some(Built(KeyedAppend(acc, CText(key), Str("null")), n.next))
      else if IsNumberChar(c) then
        var num := NumberTail(input, q + 1);
        Some(Built(KeyedAppend(acc, CText(key), Num([c] + num.text)), num.next))
      else None
  }

  /** wjson_parse_list: the first character read must be '['; otherwise
      the result is the NULL handle, here the empty chain. */
  function ListOf(input: string, p: nat): (r: Built)
    requires p <= |input|
    ensures p <= r.next <= |input| && (p < |input| ==> p < r.next)
    ensures r.nodes == [] <==> !(p < |input| && input[p] == '[')
        decreases |input| - p, 1
  {
    if p == |input| then Built([], p)
    else if input[p] != '[' then Built([], p + 1)
    else Items(input, [Placeholder], p + 1)
  }

  /** The item loop of wjson_parse_list: read until ']' or the end of the
      text, one item per round. */
  function Items(input: string, acc: seq<Node>, q: nat): (r: Built)
    requires q <= |input| && |acc| >= 1
    ensures q <= r.next <= |input|
    ensures |r.nodes| >= 1
    decreases |input| - q, 3
  {
    if q == |input| then Built(acc, q)
    else if input[q] == ']' then Built(acc, q + 1)
    else
      var it := Item(input, acc, q);
      Items(input, it.nodes, it.next)
  }

  /** One round of the item loop from the character at q: the dispatch is
      the one of wjson_parse_value, except that a nested list is appended
      with the object tag, `null` appends nothing, and a character that
      starts no value is skipped. */
  function Item(input: string, acc: seq<Node>, q: nat): (r: Built)
    requires q < |input| && |acc| >= 1
    ensures q < r.next <= |input|
    ensures |r.nodes| >= 1
    decreases |input| - q, 2
  {
    var c := input[q];
    if c == '"' then
      var s := StringBody(input, q + 1);
      Built(ListAppend(acc, Str(CText(s.text))), s.next)
    else if c == '{' then
      var sub := Subobj(input, q);
      Built(ListAppend(acc, Obj(sub.nodes)), sub.next)
    else if c == '[' then
      var l := ListOf(input, q);
      Built(ListAppend(acc, Obj(l.nodes)), l.next)
    else
      var t := Matches(input, q + 1, "true");
      var f := Matches(input, q + 1, "false");
      var n := Matches(input, q + 1, "null");
      if t.matched then Built(ListAppend(acc, Bool(true)), t.next)
      else if f.matched then Built(ListAppend(acc, Bool(false)), f.next)
      else if n.matched then Built(acc, n.next)
      else if IsNumberChar(c) then
        var num := NumberTail(input, q + 1);
        Built(ListAppend(acc, Num([c] + num.text)), num.next)
      else Built(acc, q + 1)
  }

  /** A character other than '"', '{' and '[' that wjson_parse_value or
      the item loop reads and then probes keywords after. */
  predicate ProbesKeywords(c: char)
  {
    c != '"' && c != '{' && c != '['
  }

  /** The dispatch of wjson_parse_value: a value that is found is the one
      appended, never EMPTY and never NULL; `null` after the dispatch
      character stores the string "null", `true` and `false` store booleans,
      '[' stores a LIST. */
  lemma MemberDispatch(input: string, acc: seq<Node>, key: string, q: nat)
    requires q < |input| && |acc| >= 1
    ensures var r := ValueAt(input, acc, key, q);
            r.Some? ==> var v := r.value.nodes[|r.value.nodes| - 1].value; !v.Empty? && !v.Null?
    ensures input[q] == '[' ==> ValueAt(input, acc, key, q) == Some(Built(KeyedAppend(acc, CText(key), List(ListOf(input, q).nodes)), ListOf(input, q).next))
    ensures ProbesKeywords(input[q]) && KeywordAt(input, q + 1, "null")
            ==> ValueAt(input, acc, key, q) == Some(Built(KeyedAppend(acc, CText(key), Str("null")), Matches(input, q + 1, "null").next))
    ensures ProbesKeywords(input[q]) && KeywordAt(input, q + 1, "true")
            ==> ValueAt(input, acc, key, q) == Some(Built(KeyedAppend(acc, CText(key), Bool(true)), Matches(input, q + 1, "true").next))
    ensures ProbesKeywords(input[q]) && KeywordAt(input, q + 1, "false")
            ==> ValueAt(input, acc, key, q) == Some(Built(KeyedAppend(acc, CText(key), Bool(false)), Matches(input, q + 1, "false").next))
  {
    if ProbesKeywords(input[q]) && q + 1 < |input| {
      if input[q + 1] != 't' {
        MismatchOnFirst(input, q + 1, "true");
      }
      if input[q + 1] != 'f' {
        MismatchOnFirst(input, q + 1, "false");
      }
    }
  }

  /** wjson_parse_value stores exactly one value under its key unless the
      text ends first: a chain left unchanged means the loop reached the end
      of the text. */
  lemma {:induction false} MemberValueFinds(input: string, acc: seq<Node>, key: string, q: nat)
    requires q <= |input| && |acc| >= 1
    ensures var r := MemberValue(input, acc, key, q);
            r.nodes == acc ==> r.next == |input|
    decreases |input| - q
  {
    if q < |input| {
      var v := ValueAt(input, acc, key, q);
      if v.Some? {
        MemberDispatch(input, acc, key, q);
        var nodes := v.value.nodes;
        AttachShape(acc, Node(Some(CText(key)), nodes[|nodes| - 1].value));
      } else {
        MemberValueFinds(input, acc, key, q + 1);
      }
    }
  }

  /** wjson_parse_key hands the value loop the key text up to its closing
      quote, a NUL included; a member that is stored is stored under the
      wcsdup copy of that text, which ends before its first NUL. */
  lemma MemberKeyCut(input: string, acc: seq<Node>, q: nat)
    requires q <= |input| && |acc| >= 1
    ensures var key := StringBody(input, q).text;
            var r := Member(input, acc, '"', q);
            r.nodes == acc || r.nodes[|r.nodes| - 1].key == Some(CText(key))
  {
    var key := StringBody(input, q);
    var r := MemberValue(input, acc, key.text, SkipPast(input, key.next, ':'));
    if r.nodes != acc {
      AttachShape(acc, Node(Some(CText(key.text)), r.nodes[|r.nodes| - 1].value));
    }
  }

  /** The dispatch of the item loop: a round appends at most one item,
      never EMPTY, LIST or NULL.  '[' appends the nested list with the
      OBJECT tag, `null` after the dispatch character appends nothing, and
      `true` and `false` append booleans. */
  lemma ListDispatch(input: string, acc: seq<Node>, q: nat)
    requires q < |input| && |acc| >= 1
    ensures var r := Item(input, acc, q);
            || r.nodes == acc
            || (var v := r.nodes[|r.nodes| - 1].value;
                r.nodes == ListAppend(acc, v) && !v.Empty? && !v.List? && !v.Null?)
    ensures input[q] == '[' ==> Item(input, acc, q) == Built(ListAppend(acc, Obj(ListOf(input, q).nodes)), ListOf(input, q).next)
    ensures ProbesKeywords(input[q]) && KeywordAt(input, q + 1, "null")
            ==> Item(input, acc, q) == Built(acc, Matches(input, q + 1, "null").next)
    ensures ProbesKeywords(input[q]) && KeywordAt(input, q + 1, "true")
            ==> Item(input, acc, q) == Built(ListAppend(acc, Bool(true)), Matches(input, q + 1, "true").next)
    ensures ProbesKeywords(input[q]) && KeywordAt(input, q + 1, "false")
            ==> Item(input, acc, q) == Built(ListAppend(acc, Bool(false)), Matches(input, q + 1, "false").next)
  {
    if ProbesKeywords(input[q]) && q + 1 < |input| {
      if input[q + 1] != 't' {
        MismatchOnFirst(input, q + 1, "true");
      }
      if input[q + 1] != 'f' {
        MismatchOnFirst(input, q + 1, "false");
      }
    }
  }

  /** No keyword follows the dispatch character at q. */
  predicate NoKeywordAfter(input: string, q: nat)
  {
    !KeywordAt(input, q + 1, "true") && !KeywordAt(input, q + 1, "false") && !KeywordAt(input, q + 1, "null")
  }

  /** Which characters start a value in wjson_parse_value, and which value
      each one stores: '"' the string literal after it, '{' the sub-object
      read from it, and a number character not followed by a keyword the
      number lexeme.  Every other character starts no value. */
  lemma ValueStarts(input: string, acc: seq<Node>, key: string, q: nat)
    requires q < |input| && |acc| >= 1
    ensures ValueAt(input, acc, key, q).None?
            <==> ProbesKeywords(input[q]) && !IsNumberChar(input[q]) && NoKeywordAfter(input, q)
    ensures input[q] == '"'
            ==> ValueAt(input, acc, key, q) ==
                Some(Built(KeyedAppend(acc, CText(key), Str(CText(StringBody(input, q + 1).text))), StringBody(input, q + 1).next))
    ensures input[q] == '{'
            ==> ValueAt(input, acc, key, q) ==
                Some(Built(KeyedAppend(acc, CText(key), Obj(Subobj(input, q).nodes)), Subobj(input, q).next))
    ensures ProbesKeywords(input[q]) && IsNumberChar(input[q]) && NoKeywordAfter(input, q)
            ==> ValueAt(input, acc, key, q) ==
                Some(Built(KeyedAppend(acc, CText(key), Num([input[q]] + NumberTail(input, q + 1).text)), NumberTail(input, q + 1).next))
  {
  }

  /** The same for the item loop: '"' appends the string literal, '{' the
      sub-object, a number character not followed by a keyword the number
      lexeme; every other character is skipped, appending nothing. */
  lemma ItemStarts(input: string, acc: seq<Node>, q: nat)
    requires q < |input| && |acc| >= 1
    ensures input[q] == '"'
            ==> Item(input, acc, q) == Built(ListAppend(acc, Str(CText(StringBody(input, q + 1).text))), StringBody(input, q + 1).next)
    ensures input[q] == '{'
            ==> Item(input, acc, q) == Built(ListAppend(acc, Obj(Subobj(input, q).nodes)), Subobj(input, q).next)
    ensures ProbesKeywords(input[q]) && IsNumberChar(input[q]) && NoKeywordAfter(input, q)
            ==> Item(input, acc, q) == Built(ListAppend(acc, Num([input[q]] + NumberTail(input, q + 1).text)), NumberTail(input, q + 1).next)
    ensures ProbesKeywords(input[q]) && !IsNumberChar(input[q]) && NoKeywordAfter(input, q)
            ==> Item(input, acc, q) == Built(acc, q + 1)
  {
  }

  /** The member loop ends right after a '}' it reads, or at the end of the
      text. */
  lemma {:induction false} MembersStop(input: string, acc: seq<Node>, q: nat)
    requires q <= |input| && |acc| >= 1
    ensures var r := Members(input, acc, q);
            r.next == |input| || (q < r.next && input[r.next - 1] == '}')
    decreases |input| - q
  {
    if q < |input| && input[q] != '}' {
      var m := Member(input, acc, input[q], q + 1);
      MembersStop(input, m.nodes, m.next);
    }
  }

  /** The item loop ends right after a ']' it reads, or at the end of the
      text. */
  lemma {:induction false} ItemsStop(input: string, acc: seq<Node>, q: nat)
    requires q <= |input| && |acc| >= 1
    ensures var r := Items(input, acc, q);
            r.next == |input| || (q < r.next && input[r.next - 1] == ']')
    decreases |input| - q
  {
    if q < |input| && input[q] != ']' {
      var it := Item(input, acc, q);
      ItemsStop(input, it.nodes, it.next);
    }
  }
}
