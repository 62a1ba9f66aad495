/** The node of a wjson document: one tagged union per entry of a container.
    A container (object or list) is the ordered sequence of its entries; the
    C code keeps that order in the prev/next pointers of the entries, here it
    is the order of a Dafny sequence. */
module Nodes {

  datatype Option<+T> = None | Some(value: T)

  /** The payload of a node, one constructor per WJSON_TYPE_* tag.  The C
      union holds exactly one of string, number, object, list and bool, and
      which one is meant is decided by the tag; a sum type makes that
      structural.  Numbers are kept as the text of their lexeme. */
  datatype Value =
    | Empty                        // WJSON_TYPE_EMPTY: unfilled placeholder
    | Str(text: string)            // WJSON_TYPE_STRING
    | Num(lexeme: string)          // WJSON_TYPE_NUMERICAL
    | Obj(members: seq<Node>)      // WJSON_TYPE_OBJECT: the child chain
    | Bool(flag: bool)             // WJSON_TYPE_BOOLEAN
    | List(items: seq<Node>)       // WJSON_TYPE_LIST: the child chain
    | Null                         // WJSON_TYPE_NULL

  /** One `struct wjson`: its key (None is the NULL key of a placeholder)
      and its payload. */
  datatype Node = Node(key: Option<string>, value: Value)

  const TypeEmpty: nat := 0
  const TypeString: nat := 1
  const TypeNumerical: nat := 2
  const TypeObject: nat := 3
  const TypeBoolean: nat := 4
  const TypeList: nat := 5
  const TypeNull: nat := 6

  /** The `type` field of the C node for a payload. */
  function TypeOf(v: Value): (code: nat)
    ensures code <= TypeNull
    ensures code == TypeEmpty <==> v.Empty?
  {
    match v
    case Empty => TypeEmpty
    case Str(_) => TypeString
    case Num(_) => TypeNumerical
    case Obj(_) => TypeObject
    case Bool(_) => TypeBoolean
    case List(_) => TypeList
    case Null => TypeNull
  }

  /** The variant a tag code selects, the inverse of TypeOf on the seven
      codes; the payload is left at its zero value, as wjson_initialize
      leaves it. */
  function VariantOf(code: nat): (v: Value)
    requires code <= TypeNull
  {
    if code == TypeEmpty then Empty
    else if code == TypeString then Str([])
    else if code == TypeNumerical then Num([])
    else if code == TypeObject then Obj([])
    else if code == TypeBoolean then Bool(false)
    else if code == TypeList then List([])
    else Null
  }

  /** The seven tags are seven distinct codes: every code from 0 to 6 is
      the tag of the variant it selects, so no two variants share a code. */
  lemma TypeCodesDistinct(code: nat)
    requires code <= TypeNull
    ensures TypeOf(VariantOf(code)) == code
  {
  }

  /** Total size of a chain, used to show that the mutual recursion over
      nested containers terminates. */
  function SizeOfNodes(ns: seq<Node>): (n: nat)
    ensures n >= |ns|
  {
    if ns == [] then 0 else SizeOfNode(ns[0]) + SizeOfNodes(ns[1..])
  }

  function SizeOfNode(n: Node): (k: nat)
    ensures k >= 1
  {
    1 + SizeOfValue(n.value)
  }

  function SizeOfValue(v: Value): nat
  {
    match v
    case Obj(ms) => 1 + SizeOfNodes(ms)
    case List(xs) => 1 + SizeOfNodes(xs)
    case _ => 0
  }
}
