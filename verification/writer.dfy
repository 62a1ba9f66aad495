/** The pretty-printer.  What the C routines write to standard output is
    returned as a string: `Render*` functions say what the text is, and the
    `Print*` methods produce it as the C loops do, walking the chain one
    node at a time.  A number is written as the lexeme the reader collected;
    the `%f` formatting of a double is not part of this model. */
module Writer {
  import opened Nodes

  /** The text of wjson_print_indentation: one tab per level, nothing for a
      level of zero or below. */
  function Tabs(n: int): (t: string)
    ensures |t| == if n > 0 then n else 0
    ensures forall i | 0 <= i < |t| :: t[i] == '\t'
    decreases if n > 0 then n else 0
  {
    if n <= 0 then [] else Tabs(n - 1) + ['\t']
  }

  /** A key as `%ls` writes it; glibc writes a NULL string as "(null)". */
  function KeyText(key: Option<string>): string
  {
    if key.Some? then key.value else "(null)"
  }

  /** wjson_print: "{", one line per member, the closing "}" at the
      container's own indentation. */
  function RenderObject(ns: seq<Node>, ind: int): (r: string)
    ensures |r| >= 3 && r[0] == '{' && r[1] == '\n' && r[|r| - 1] == '}'
    decreases SizeOfNodes(ns), 2
  {
    "{\n" + RenderEntries(ns, ind, true) + Tabs(ind) + "}"
  }

  /** wjson_print_list: the same layout with "[" ... "]" and no keys. */
  function RenderList(ns: seq<Node>, ind: int): (r: string)
    ensures |r| >= 3 && r[0] == '[' && r[1] == '\n' && r[|r| - 1] == ']'
    decreases SizeOfNodes(ns), 2
  {
    "[\n" + RenderEntries(ns, ind, false) + Tabs(ind) + "]"
  }

  /** The lines of a chain; only the last one goes without a comma. */
  function RenderEntries(ns: seq<Node>, ind: int, keyed: bool): (r: string)
    ensures ns == [] <==> r == []
    decreases SizeOfNodes(ns), 1
  {
    if ns == [] then []
    else RenderEntry(ns[0], ind, keyed, |ns| > 1) + RenderEntries(ns[1..], ind, keyed)
  }

  /** One line: indentation one level deeper than the container, the quoted
      key and " : " in an object, the value, a comma when another entry
      follows, and a newline. */
  function RenderEntry(n: Node, ind: int, keyed: bool, more: bool): (r: string)
    ensures |r| >= 1 && r[|r| - 1] == '\n'
    ensures |r| >= 2 && r[|r| - 2] == ',' <== more
    decreases SizeOfNode(n), 0
  {
    var keyPart := if keyed then "\"" + KeyText(n.key) + "\" : " else [];
    var separator := if more then "," else [];
    Tabs(ind + 1) + keyPart + RenderValue(n.value, ind + 1) + separator + "\n"
  }

  /** The switch on the tag: a nested container is printed at the entry's
      indentation; an EMPTY node prints nothing. */
  function RenderValue(v: Value, ind: int): (r: string)
    ensures r == [] <==> v.Empty? || v == Num([])
    decreases SizeOfValue(v), 3
  {
    match v
    case Empty => []
    case Str(s) => "\"" + s + "\""
    case Num(lexeme) => lexeme
    case Obj(ms) => RenderObject(ms, ind)
    case Bool(b) => if b then "true" else "false"
    case List(xs) => RenderList(xs, ind)
    case Null => "null"
  }

  /** Every line starts with one tab more than its container's level, and
      the line of an entry that another entry follows is the same line with
      a comma before the newline. */
  lemma EntryLayout(n: Node, ind: int, keyed: bool)
    requires ind >= 0
    ensures var last := RenderEntry(n, ind, keyed, false);
            && |last| > ind + 1 && last[..ind + 1] == Tabs(ind + 1)
            && RenderEntry(n, ind, keyed, true) == last[..|last| - 1] + ",\n"
  {
    var keyPart := if keyed then "\"" + KeyText(n.key) + "\" : " else [];
    var body := Tabs(ind + 1) + keyPart + RenderValue(n.value, ind + 1);
    assert RenderEntry(n, ind, keyed, false) == body + "\n";
    assert RenderEntry(n, ind, keyed, true) == body + "," + "\n";
    assert (body + "\n")[..|body|] == body;
    if keyed {
      assert |body| > ind + 1;
    } else {
      assert |body| + 1 > ind + 1;
    }
    assert (body + "\n")[..ind + 1] == Tabs(ind + 1);
  }

  /** A container closes on a line of its own level's tabs. */
  lemma ClosingLayout(ns: seq<Node>, ind: int)
    requires ind >= 0
    ensures var r := RenderObject(ns, ind); r[|r| - ind - 1..] == Tabs(ind) + "}"
    ensures var r := RenderList(ns, ind); r[|r| - ind - 1..] == Tabs(ind) + "]"
  {
    var o := RenderObject(ns, ind);
    assert o == ("{\n" + RenderEntries(ns, ind, true)) + (Tabs(ind) + "}");
    var l := RenderList(ns, ind);
    assert l == ("[\n" + RenderEntries(ns, ind, false)) + (Tabs(ind) + "]");
  }

  /** An entry of a chain is strictly smaller than the chain. */
  lemma {:induction false} EntrySmaller(ns: seq<Node>, i: nat)
    requires i < |ns|
    ensures SizeOfValue(ns[i].value) < SizeOfNodes(ns)
    decreases i
  {
    if i > 0 {
      EntrySmaller(ns[1..], i - 1);
      assert ns[1..][i - 1] == ns[i];
    }
  }

  /** The entries from position i on: the line of entry i, then the rest. */
  lemma EntriesFrom(ns: seq<Node>, i: nat, ind: int, keyed: bool)
    requires i < |ns|
    ensures RenderEntries(ns[i..], ind, keyed)
         == RenderEntry(ns[i], ind, keyed, i + 1 < |ns|) + RenderEntries(ns[i + 1..], ind, keyed)
  {
    assert ns[i..][1..] == ns[i + 1..];
  }

  /** wjson_print_indentation */
  method PrintIndentation(indentation: int) returns (out: string)
    ensures out == Tabs(indentation)
  {
    out := [];
    var counter := 0;
    while counter < indentation
      invariant 0 <= counter <= if indentation > 0 then indentation else 0
      invariant out == Tabs(counter)
      decreases indentation - counter
    {
      out := out + "\t";
      counter := counter + 1;
    }
  }

  /** wjson_print: the loop over the chain of `head`. */
  method Print(ns: seq<Node>, indentation: int) returns (out: string)
    ensures out == RenderObject(ns, indentation)
    decreases SizeOfNodes(ns)
  {
    out := "{\n";
    var i := 0;
    while i < |ns|
      invariant 0 <= i <= |ns|
      invariant out + RenderEntries(ns[i..], indentation, true) == "{\n" + RenderEntries(ns, indentation, true)
      decreases |ns| - i
    {
      var tabs := PrintIndentation(indentation + 1);
      EntrySmaller(ns, i);
      var value := PrintValue(ns[i].value, indentation + 1);
      var separator := if i + 1 < |ns| then "," else "";
      var keyPart := "\"" + KeyText(ns[i].key) + "\" : ";
      var line := tabs + keyPart + value + separator + "\n";
      assert line == RenderEntry(ns[i], indentation, true, i + 1 < |ns|);
      EntriesFrom(ns, i, indentation, true);
      assert out + line + RenderEntries(ns[i + 1..], indentation, true) == out + RenderEntries(ns[i..], indentation, true);
      out := out + line;
      i := i + 1;
    }
    assert ns[i..] == [];
    var tabs := PrintIndentation(indentation);
    out := out + tabs + "}";
  }

  /** wjson_print_list: the same loop without keys. */
  method PrintList(ns: seq<Node>, indentation: int) returns (out: string)
    ensures out == RenderList(ns, indentation)
    decreases SizeOfNodes(ns)
  {
    out := "[\n";
    var i := 0;
    while i < |ns|
      invariant 0 <= i <= |ns|
      invariant out + RenderEntries(ns[i..], indentation, false) == "[\n" + RenderEntries(ns, indentation, false)
      decreases |ns| - i
    {
      var tabs := PrintIndentation(indentation + 1);
      EntrySmaller(ns, i);
      var value := PrintValue(ns[i].value, indentation + 1);
      var separator := if i + 1 < |ns| then "," else "";
      var line := tabs + value + separator + "\n";
      assert tabs + [] == tabs;
      assert line == RenderEntry(ns[i], indentation, false, i + 1 < |ns|);
      EntriesFrom(ns, i, indentation, false);
      assert out + line + RenderEntries(ns[i + 1..], indentation, false) == out + RenderEntries(ns[i..], indentation, false);
      out := out + line;
      i := i + 1;
    }
    assert ns[i..] == [];
    var tabs := PrintIndentation(indentation);
    out := out + tabs + "]";
  }

  /** The switch on the tag that both printers share. */
  method PrintValue(v: Value, indentation: int) returns (out: string)
    ensures out == RenderValue(v, indentation)
    decreases SizeOfValue(v)
  {
    match v {
      case Empty => out := [];
      case Str(s) => out := "\"" + s + "\"";
      case Num(lexeme) => out := lexeme;
      case Obj(ms) => out := Print(ms, indentation);
      case Bool(b) => out := if b then "true" else "false";
      case List(xs) => out := PrintList(xs, indentation);
      case Null => out := "null";
    }
  }
}
