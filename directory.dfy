/**
 * The vocabulary shared with the directory server: what a search returns,
 * what a write request carries, and the server itself as an oracle.
 * The directory client library is not part of this model; its searches are
 * answered by an `Oracle` and its writes are recorded as `Request`s.
 */
module Directory {
  import opened Wrappers

  /**
   * A search filter, opaque to this layer. Equality stands for Ruby's
   * `eql?` on the filter object, which decides whether two cache keys match.
   */
  datatype Filter = Filter(text: string)

  /** One entry of a search result: its distinguished name and its attributes. */
  datatype Entry = Entry(dn: string, attributes: map<string, seq<string>>)

  /** A Ruby value as it appears in an attribute hash or as a block's result. */
  datatype Value = Nil | Bool(b: bool) | Text(s: string) | List(items: seq<string>)

  /** Ruby truthiness: only nil and false are false (an empty list is true). */
  predicate Truthy(v: Value)
  {
    v != Nil && v != Bool(false)
  }

  /** `attributes[key]` on a Ruby hash: nil when the key is absent. */
  function Lookup(attributes: map<string, Value>, key: string): Value
  {
    if key in attributes then attributes[key] else Nil
  }

  /** The kind of one modify operation on a multi-valued attribute. */
  datatype OpKind = AddValue | DeleteValue

  /** One modify operation `[kind, attribute, value]`. */
  datatype Op = Op(kind: OpKind, attribute: string, value: string)

  /** A request sent to the directory server, as it appears in the request log. */
  datatype Request =
    | Search(base: string, filter: Filter, requested: Option<seq<string>>)
    | Add(dn: string, attributes: map<string, Value>)
    | Delete(dn: string)
    | Modify(dn: string, operations: seq<Op>)

  /** The directory as seen by searches: the entries found under a base for a filter. */
  type Oracle = (string, Filter, Option<seq<string>>) -> seq<Entry>

  /**
   * The server's answer to a write request: the boolean the client returns,
   * and the directory as it answers searches once the request is applied.
   */
  datatype Reply = Reply(ok: bool, next: Oracle)
}
