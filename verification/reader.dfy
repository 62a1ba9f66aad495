/** The recursive-descent reader as the C code runs it: loops over the
    stream that append to a mutable container, recursion only for nested
    containers.  A pushed-back dispatch character (ungetwc) is the position
    one less.  Each routine is proved to compute what the matching function
    of module Grammar describes. */
module Reader {
  import opened Nodes
  import opened Builder
  import opened Scanner
  import Grammar

  /** wjson_parse_subobj */
  method ParseSubobj(input: string, p: nat) returns (node: Container, q: nat)
    requires p <= |input|
    ensures node.Valid()
    ensures Grammar.Built(node.entries, q) == Grammar.Subobj(input, p)
    decreases |input| - p, 1
  {
    node := new Container.Initialize();
    q := SkipPastChar(input, p, '{');
    while q < |input| && input[q] != '}'
      invariant p <= q <= |input|
      invariant node.Valid()
      invariant Grammar.Members(input, node.entries, q) == Grammar.Subobj(input, p)
      decreases |input| - q
    {
      var wchar := input[q];
      q := ParseKey(input, wchar, q + 1, node);
    }
    if q < |input| {
      q := q + 1;
    }
  }

  /** wjson_parse_key: wchar is the character the member loop read. */
  method ParseKey(input: string, wchar: char, q: nat, node: Container) returns (r: nat)
    requires q <= |input| && node.Valid()
    modifies node
    ensures node.Valid()
    ensures Grammar.Built(node.entries, r) == Grammar.Member(input, old(node.entries), wchar, q)
    decreases |input| - q, 4
  {
    if wchar != '"' {
      return q;
    }
    var key, afterKey := ScanString(input, q);
    r := SkipPastChar(input, afterKey, ':');
    r := ParseValue(input, key, r, node);
  }

  /** wjson_parse_value: one value under `key`. */
  method ParseValue(input: string, key: string, q: nat, node: Container) returns (r: nat)
    requires q <= |input| && node.Valid()
    modifies node
    ensures node.Valid()
    ensures Grammar.Built(node.entries, r) == Grammar.MemberValue(input, old(node.entries), key, q)
    decreases |input| - q, 3
  {
    r := q;
    while r < |input|
      invariant q <= r <= |input|
      invariant node.Valid() && node.entries == old(node.entries)
      invariant Grammar.MemberValue(input, node.entries, key, r) == Grammar.MemberValue(input, old(node.entries), key, q)
      decreases |input| - r
    {
      var found;
      found, r := ParseValueAt(input, key, r, node);
      if found {
        return;
      }
    }
  }

  /** One round of the loop of wjson_parse_value, from the character at q:
      append the value that character starts, if it starts one. */
  method ParseValueAt(input: string, key: string, q: nat, node: Container) returns (found: bool, r: nat)
    requires q < |input| && node.Valid()
    modifies node
    ensures node.Valid()
    ensures found ==> Grammar.ValueAt(input, old(node.entries), key, q) == Some(Grammar.Built(node.entries, r))
    ensures !found ==> Grammar.ValueAt(input, old(node.entries), key, q) == None && node.entries == old(node.entries) && r == q + 1
    decreases |input| - q, 2
  {
    var wchar := input[q];
    r := q + 1;
    found := true;
    if wchar == '"' {
      var text;
      text, r := ScanString(input, r);
      node.AppendString(key, text);
      return;
    } else if wchar == '{' {
      var child;
      child, r := ParseSubobj(input, r - 1);
      node.AppendObject(key, child);
      return;
    } else if wchar == '[' {
      var child;
      child, r := ParseList(input, r - 1);
      node.AppendList(key, child);
      return;
    }
    var matched;
    matched, r := MatchSequence(input, r, "true");
    if matched {
      node.AppendBoolean(key, true);
      return;
    }
    matched, r := MatchSequence(input, r, "false");
    if matched {
      node.AppendBoolean(key, false);
      return;
    }
    matched, r := MatchSequence(input, r, "null");
    if matched {
      CTextWhole("null");
      node.AppendString(key, "null");
      return;
    }
    if IsNumberChar(wchar) {
      var lexeme;
      lexeme, r := ScanNumber(input, wchar, r);
      node.AppendNumerical(key, lexeme);
      return;
    }
    found := false;
  }

  /** wjson_parse_list: NULL unless the first character read is '['. */
  method ParseList(input: string, p: nat) returns (node: Container?, q: nat)
    requires p <= |input|
    ensures node != null ==> node.Valid()
    ensures Grammar.Built(EntriesOf(node), q) == Grammar.ListOf(input, p)
    decreases |input| - p, 1
  {
    if p == |input| {
      return null, p;
    }
    if input[p] != '[' {
      return null, p + 1;
    }
    q := p + 1;
    node := new Container.InitializeList();
    while q < |input| && input[q] != ']'
      invariant p < q <= |input|
      invariant node.Valid()
      invariant Grammar.Items(input, node.entries, q) == Grammar.ListOf(input, p)
      decreases |input| - q
    {
      q := ParseItem(input, q, node);
    }
    if q < |input| {
      q := q + 1;
    }
  }

  /** One round of the item loop of wjson_parse_list, from the character at q. */
  method ParseItem(input: string, q: nat, node: Container) returns (r: nat)
    requires q < |input| && node.Valid()
    modifies node
    ensures node.Valid()
    ensures Grammar.Built(node.entries, r) == Grammar.Item(input, old(node.entries), q)
    decreases |input| - q, 2
  {
    var wchar := input[q];
    r := q + 1;
    if wchar == '"' {
      var text;
      text, r := ScanString(input, r);
      node.ListAppendString(text);
      return;
    } else if wchar == '{' {
      var child;
      child, r := ParseSubobj(input, r - 1);
      node.ListAppendObject(child);
      return;
    } else if wchar == '[' {
      var child;
      child, r := ParseList(input, r - 1);
      node.ListAppendObject(child);
      return;
    }
    var matched;
    matched, r := MatchSequence(input, r, "true");
    if matched {
      node.ListAppendBoolean(true);
      return;
    }
    matched, r := MatchSequence(input, r, "false");
    if matched {
      node.ListAppendBoolean(false);
      return;
    }
    matched, r := MatchSequence(input, r, "null");
    if !matched && IsNumberChar(wchar) {
      var lexeme;
      lexeme, r := ScanNumber(input, wchar, r);
      node.ListAppendNumerical(lexeme);
    }
  }
}
