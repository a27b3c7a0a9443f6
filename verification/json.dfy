/**
 * The JavaScript values the client walks and sends: the tree of endpoint
 * parameters handed to `request`/`subscribe`, the upload holders that may
 * appear anywhere inside it, and the `{ uploadKey }` token that stands for
 * an extracted upload on the wire.
 */
module Json {

  /** An `Upload` holder: the binary payload and an optional file name. */
  datatype Upload = Upload(file: seq<bv8>, name: Option<string>)

  datatype Option<+T> = None | Some(value: T)

  /** Leaf values other than `null`. Numbers are modelled as integers. */
  datatype Scalar = Bool(b: bool) | Num(n: int) | Str(s: string)

  /**
   * A parameter tree. `Object` keeps its entries in the order `for...in`
   * visits them; `File` is an `Upload` instance found inside the tree.
   */
  datatype Value =
    | Null
    | Prim(p: Scalar)
    | Array(items: seq<Value>)
    | Object(fields: seq<Member>)
    | File(upload: Upload)

  /** One entry of an object. */
  datatype Member = Member(name: string, value: Value)

  /** An endpoint descriptor: an object from operation name to parameters. */
  type Endpoint = v: Value | v.Object? witness Object([])

  /** The object `{ uploadKey }` that replaces an extracted upload. */
  function Token(key: nat): (t: Value)
    ensures IsToken(t) && t.fields[0].value.p.n == key
  {
    Object([Member("uploadKey", Prim(Num(key)))])
  }

  /**
   * An object of the token's shape: one entry, named `uploadKey`, holding
   * an integer.
   */
  predicate IsToken(v: Value) {
    && v.Object? && |v.fields| == 1 && v.fields[0].name == "uploadKey"
    && v.fields[0].value.Prim? && v.fields[0].value.p.Num?
  }

  /** The names of an object's entries, in order. */
  function Names(fields: seq<Member>): (ns: seq<string>)
    ensures |ns| == |fields|
    ensures forall i :: 0 <= i < |fields| ==> ns[i] == fields[i].name
  {
    if fields == [] then [] else [fields[0].name] + Names(fields[1..])
  }
}
