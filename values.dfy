/**
 * Ruby values as the payments client handles them: JSON-like documents
 * (nil, booleans, numbers, strings, arrays, hashes) and references to node
 * objects, which travel through the same option hashes as plain data.
 */
module Values {

  /** The three kinds of object the `is_a?` guards tell apart. */
  datatype NodeKind =
    | Unverified   // an UnverifiedNode
    | OtherBase    // any other BaseNode
    | NotANode     // an object that is not a BaseNode at all

  /** A node argument: its kind, its `id` and the `id` of the user it belongs to. */
  datatype Node = Node(kind: NodeKind, id: Value, userId: Value)

  /** A Ruby value. Hash keys (string keys and keyword symbols alike) are strings. */
  datatype Value =
    | Nil
    | Bool(b: bool)
    | Num(n: int)
    | Str(s: string)
    | List(items: seq<Value>)
    | Hash(entries: map<string, Value>)
    | NodeRef(node: Node)

  /** Ruby truthiness: everything except `nil` and `false`. */
  predicate Truthy(v: Value) {
    v != Nil && v != Bool(false)
  }

  /** `h[k]` on a Ruby hash: `nil` for a missing key. */
  function Get(h: map<string, Value>, k: string): Value {
    if k in h then h[k] else Nil
  }

  /** The key `k` is present in the hash `doc`. */
  predicate Has(doc: Value, k: string) {
    doc.Hash? && k in doc.entries
  }

  /** `doc[k]` on a document that is a hash, `nil` otherwise. */
  function At(doc: Value, k: string): Value {
    if doc.Hash? then Get(doc.entries, k) else Nil
  }
}
