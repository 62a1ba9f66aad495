/** The container builder: wjson_initialize / wjson_initialize_list create a
    container holding one EMPTY placeholder node, and every wjson_append_* /
    wjson_list_append_* walks to the tail, reuses it when it is still the
    EMPTY placeholder and otherwise links exactly one new node after it. */
module Builder {
  import opened Nodes

  /** The node wjson_initialize allocates: tag EMPTY, NULL key, zero payload. */
  const Placeholder: Node := Node(None, Empty)

  /** The shape every container keeps: at least one node; only a lone head
      may still be the EMPTY placeholder, and exactly the placeholder has no
      key. */
  predicate IsChain(ns: seq<Node>)
  {
    && |ns| >= 1
    && (forall i | 0 <= i < |ns| :: ns[i].value.Empty? <==> ns[i].key.None?)
    && (forall i | 0 <= i < |ns| :: ns[i].value.Empty? ==> |ns| == 1)
  }

  /** One append step on a chain: the new node n becomes the tail.  An EMPTY
      tail is overwritten in place; any other tail gets one node linked after
      it.  Either way every node before the old tail is kept. */
  function Attach(ns: seq<Node>, n: Node): (r: seq<Node>)
    requires |ns| >= 1
    ensures |r| >= |ns|
  {
    if ns[|ns| - 1].value.Empty? then ns[..|ns| - 1] + [n] else ns + [n]
  }

  /** What one append does to the chain: the new node is the tail; an EMPTY
      tail was overwritten in place (no node added), any other tail got
      exactly one node linked after it; every earlier node is unchanged. */
  lemma AttachShape(ns: seq<Node>, n: Node)
    requires |ns| >= 1
    ensures var r := Attach(ns, n);
      && r[|r| - 1] == n
      && r[..|ns| - 1] == ns[..|ns| - 1]
      && (ns[|ns| - 1].value.Empty? ==> |r| == |ns|)
      && (!ns[|ns| - 1].value.Empty? ==> |r| == |ns| + 1 && r[..|ns|] == ns)
  {
  }

  /** The C string a wide-character buffer holds: its characters up to the
      first NUL, which is what wcsdup copies into a node. */
  function CText(s: string): (r: string)
    ensures |r| <= |s| && r == s[..|r|]
    ensures forall i | 0 <= i < |r| :: r[i] != '\0'
    ensures |r| < |s| ==> s[|r|] == '\0'
  {
    if s == [] || s[0] == '\0' then [] else [s[0]] + CText(s[1..])
  }

  /** A buffer without a NUL is copied whole; a NUL cuts the copy short. */
  lemma CTextWhole(s: string)
    ensures CText(s) == s <==> forall i | 0 <= i < |s| :: s[i] != '\0'
  {
    var r := CText(s);
    if |r| < |s| {
      assert s[|r|] == '\0';
    }
  }

  /** The decimal key of a list append has no NUL, so wcsdup copies it whole. */
  lemma DecimalKeyWhole(n: nat)
    ensures CText(DecimalString(n)) == DecimalString(n)
  {
    CTextWhole(DecimalString(n));
  }

  /** The object append family: the caller supplies the key. */
  function KeyedAppend(ns: seq<Node>, key: string, v: Value): seq<Node>
    requires |ns| >= 1
  {
    Attach(ns, Node(Some(key), v))
  }

  /** The list append family: the key is the decimal text of the number of
      `next` hops from the head to the old tail. */
  function ListAppend(ns: seq<Node>, v: Value): seq<Node>
    requires |ns| >= 1
  {
    Attach(ns, Node(Some(DecimalString(|ns| - 1)), v))
  }

  /** The node an append stores is the new tail, under the caller's key in
      the object family and under the decimal hop count to the old tail in
      the list family; every node before the old tail is kept. */
  lemma AppendedTail(ns: seq<Node>, key: string, v: Value)
    requires |ns| >= 1
    ensures var r := KeyedAppend(ns, key, v);
            |r| >= |ns| && r[|r| - 1] == Node(Some(key), v) && r[..|ns| - 1] == ns[..|ns| - 1]
    ensures var r := ListAppend(ns, v);
            |r| >= |ns| && r[|r| - 1] == Node(Some(DecimalString(|ns| - 1)), v) && r[..|ns| - 1] == ns[..|ns| - 1]
  {
    AttachShape(ns, Node(Some(key), v));
    AttachShape(ns, Node(Some(DecimalString(|ns| - 1)), v));
  }

  /** Appending a keyed, non-EMPTY node keeps the chain shape. */
  lemma AttachKeepsChain(ns: seq<Node>, n: Node)
    requires IsChain(ns) && !n.value.Empty? && n.key.Some?
    ensures IsChain(Attach(ns, n))
  {
  }

  function Digit(d: nat): (c: char)
    requires d < 10
    ensures '0' <= c <= '9'
  {
    (('0' as int) + d) as char
  }

  predicate IsDigits(s: string)
  {
    forall i | 0 <= i < |s| :: '0' <= s[i] <= '9'
  }

  /** The text `%d` produces for a non-negative int. */
  function DecimalString(n: nat): (s: string)
    ensures |s| >= 1
    ensures IsDigits(s)
    ensures s[0] == '0' ==> s == "0"
    decreases n
  {
    if n < 10 then [Digit(n)] else DecimalString(n / 10) + [Digit(n % 10)]
  }

  /** The number a string of decimal digits denotes. */
  function DecimalValue(s: string): nat
    requires IsDigits(s)
  {
    if s == [] then 0 else 10 * DecimalValue(s[..|s| - 1]) + (s[|s| - 1] as int - '0' as int)
  }

  /** Reading back the synthesised key gives the hop count it was made from. */
  lemma {:induction false} DecimalRoundTrip(n: nat)
    ensures DecimalValue(DecimalString(n)) == n
    decreases n
  {
    if n >= 10 {
      DecimalRoundTrip(n / 10);
      var s := DecimalString(n);
      assert s[..|s| - 1] == DecimalString(n / 10);
    }
  }

  /** Different hop counts give different keys. */
  lemma DecimalStringInjective(a: nat, b: nat)
    ensures DecimalString(a) == DecimalString(b) <==> a == b
  {
    DecimalRoundTrip(a);
    DecimalRoundTrip(b);
  }

  /** The container a sequence of list appends builds from a fresh list. */
  function ListOfValues(vs: seq<Value>): (ns: seq<Node>)
    ensures |ns| >= 1
  {
    if vs == [] then [Placeholder] else ListAppend(ListOfValues(vs[..|vs| - 1]), vs[|vs| - 1])
  }

  /** The key the i-th list entry receives: the first append reuses the
      placeholder (0 hops), every later one counts the hops to the old tail,
      which is one less than its position. */
  function ListKeyAt(i: nat): nat
  {
    if i == 0 then 0 else i - 1
  }

  /** Building a list by appends keeps the values in order and gives entry i
      the key ListKeyAt(i): "0", "0", "1", "2", ... */
  lemma {:induction false} ListKeysLagPosition(vs: seq<Value>)
    requires |vs| >= 1
    requires forall i | 0 <= i < |vs| :: !vs[i].Empty?
    ensures |ListOfValues(vs)| == |vs|
    ensures forall i | 0 <= i < |vs| :: ListOfValues(vs)[i] == Node(Some(DecimalString(ListKeyAt(i))), vs[i])
  {
    var init := vs[..|vs| - 1];
    if init == [] {
      assert ListOfValues(init) == [Placeholder];
    } else {
      ListKeysLagPosition(init);
      var prev := ListOfValues(init);
      assert !prev[|prev| - 1].value.Empty?;
    }
  }

  /** The handle of a container: `entries` is the chain reached from the
      head node by following `next`. */
  class Container {
    var entries: seq<Node>

    ghost predicate Valid()
      reads this
    {
      IsChain(entries)
    }

    /** wjson_initialize: a container of one EMPTY placeholder. */
    constructor Initialize()
      ensures Valid() && entries == [Placeholder]
    {
      entries := [Placeholder];
    }

    /** wjson_initialize_list: the same placeholder; lists and objects are
        told apart only by how they are appended to. */
    constructor InitializeList()
      ensures Valid() && entries == [Placeholder]
    {
      entries := [Placeholder];
    }

    /** The walk-and-store step shared by every append: find the tail, reuse
        it if EMPTY or link one new node after it, then set the payload and
        the wcsdup copy of the key. */
    method Store(key: string, v: Value)
      requires Valid() && !v.Empty?
      modifies this
      ensures Valid()
      ensures entries == KeyedAppend(old(entries), CText(key), v)
    {
      var copy := CText(key);
      var tail := |entries| - 1;
      if entries[tail].value.Empty? {
        entries := entries[tail := Node(Some(copy), v)];
      } else {
        entries := entries + [Node(Some(copy), v)];
      }
      assert entries == Attach(old(entries), Node(Some(copy), v));
    }

    /** Hop count from the head to the tail, as the list appends count it. */
    method HopsToTail() returns (index: nat)
      requires Valid()
      ensures index == |entries| - 1
    {
      index := 0;
      while index + 1 < |entries|
        invariant index <= |entries| - 1
      {
        index := index + 1;
      }
    }

    method AppendString(key: string, value: string)
      requires Valid()
      modifies this
      ensures Valid()
      ensures entries == KeyedAppend(old(entries), CText(key), Str(CText(value)))
    {
      Store(key, Str(CText(value)));
    }

    /** The child container is attached as the chain it holds now; a NULL
        child is the empty chain. */
    method AppendObject(key: string, value: Container?)
      requires Valid()
      modifies this
      ensures Valid()
      ensures entries == KeyedAppend(old(entries), CText(key), Obj(old(EntriesOf(value))))
    {
      var child := if value == null then [] else value.entries;
      Store(key, Obj(child));
    }

    method AppendList(key: string, value: Container?)
      requires Valid()
      modifies this
      ensures Valid()
      ensures entries == KeyedAppend(old(entries), CText(key), List(old(EntriesOf(value))))
    {
      var child := if value == null then [] else value.entries;
      Store(key, List(child));
    }

    method AppendNumerical(key: string, value: string)
      requires Valid()
      modifies this
      ensures Valid()
      ensures entries == KeyedAppend(old(entries), CText(key), Num(value))
    {
      Store(key, Num(value));
    }

    method AppendBoolean(key: string, value: bool)
      requires Valid()
      modifies this
      ensures Valid()
      ensures entries == KeyedAppend(old(entries), CText(key), Bool(value))
    {
      Store(key, Bool(value));
    }

    method ListAppendString(value: string)
      requires Valid()
      modifies this
      ensures Valid()
      ensures entries == ListAppend(old(entries), Str(CText(value)))
    {
      var index := HopsToTail();
      DecimalKeyWhole(index);
      Store(DecimalString(index), Str(CText(value)));
    }

    method ListAppendObject(value: Container?)
      requires Valid()
      modifies this
      ensures Valid()
      ensures entries == ListAppend(old(entries), Obj(old(EntriesOf(value))))
    {
      var child := if value == null then [] else value.entries;
      var index := HopsToTail();
      DecimalKeyWhole(index);
      Store(DecimalString(index), Obj(child));
    }

    method ListAppendNumerical(value: string)
      requires Valid()
      modifies this
      ensures Valid()
      ensures entries == ListAppend(old(entries), Num(value))
    {
      var index := HopsToTail();
      DecimalKeyWhole(index);
      Store(DecimalString(index), Num(value));
    }

    method ListAppendList(value: Container?)
      requires Valid()
      modifies this
      ensures Valid()
      ensures entries == ListAppend(old(entries), List(old(EntriesOf(value))))
    {
      var child := if value == null then [] else value.entries;
      var index := HopsToTail();
      DecimalKeyWhole(index);
      Store(DecimalString(index), List(child));
    }

    method ListAppendBoolean(value: bool)
      requires Valid()
      modifies this
      ensures Valid()
      ensures entries == ListAppend(old(entries), Bool(value))
    {
      var index := HopsToTail();
      DecimalKeyWhole(index);
      Store(DecimalString(index), Bool(value));
    }
  }

  /** The chain a (possibly NULL) container handle stands for. */
  function EntriesOf(c: Container?): seq<Node>
    reads c
  {
    if c == null then [] else c.entries
  }
}
