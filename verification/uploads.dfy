/**
 * `parseRequestEndpoints`: the walk over a request's parameter tree that
 * replaces every `Upload` by a `{ uploadKey }` token and collects the
 * uploads, in the order the walk meets them, into a side table.
 *
 * The table is a sequence: the upload at index i is stored under key
 * `base + i`. src/Client.ts numbers keys from `uploads.size` (base 0),
 * src/Client.js from `uploads.size + 1` (base 1).
 */
module Uploads {
  import opened Json

  /** Every upload inside `v`, in walk order (a reference definition). */
  function UploadsOf(v: Value): seq<Upload>
    decreases v, 1
  {
    match v
    case File(u) => [u]
    case Array(items) => UploadsOfItems(items)
    case Object(fields) => UploadsOfFields(fields)
    case _ => []
  }

  function UploadsOfItems(items: seq<Value>): seq<Upload>
    decreases items, 0
  {
    if items == [] then [] else UploadsOf(items[0]) + UploadsOfItems(items[1..])
  }

  function UploadsOfFields(fields: seq<Member>): seq<Upload>
    decreases fields, 0
  {
    if fields == [] then [] else UploadsOf(fields[0].value) + UploadsOfFields(fields[1..])
  }

  /** `v` holds no `Upload` anywhere. */
  predicate UploadFree(v: Value)
    decreases v, 1
  {
    match v
    case File(_) => false
    case Array(items) => forall i :: 0 <= i < |items| ==> UploadFree(items[i])
    case Object(fields) => forall i :: 0 <= i < |fields| ==> UploadFree(fields[i].value)
    case _ => true
  }

  /**
   * One level of the shape the walk keeps: `null` and scalars unchanged,
   * arrays of the same length, objects with the same keys in the same
   * order, an upload turned into a token.
   */
  predicate SameShape(v: Value, w: Value) {
    match v
    case Null => w == Null
    case Prim(_) => w == v
    case Array(items) => w.Array? && |w.items| == |items|
    case Object(fields) => w.Object? && Names(w.fields) == Names(fields)
    case File(_) => IsToken(w)
  }

  /**
   * The walk itself. `table` is the side table so far; the result is the
   * rewritten tree and the extended table.
   */
  function Extract(v: Value, table: seq<Upload>, base: nat): (r: (Value, seq<Upload>))
    ensures r.1 == table + UploadsOf(v)
    ensures UploadFree(r.0)
    ensures SameShape(v, r.0)
    ensures v.File? ==> r.0 == Token(base + |table|)
    decreases v, 1
  {
    match v
    case Null => (Null, table)
    case File(u) => (Token(base + |table|), table + [u])
    case Array(items) =>
      var (items', table') := ExtractItems(items, table, base);
      (Array(items'), table')
    case Object(fields) =>
      var (fields', table') := ExtractFields(fields, table, base);
      (Object(fields'), table')
    case Prim(_) => (v, table)
  }

  /** `value.map(...)`: the items left to right, threading the table. */
  function ExtractItems(items: seq<Value>, table: seq<Upload>, base: nat): (r: (seq<Value>, seq<Upload>))
    ensures |r.0| == |items|
    ensures r.1 == table + UploadsOfItems(items)
    ensures forall i :: 0 <= i < |items| ==> UploadFree(r.0[i]) && SameShape(items[i], r.0[i])
    decreases items, 0
  {
    if items == [] then ([], table)
    else
      var (head, table1) := Extract(items[0], table, base);
      var (rest, table2) := ExtractItems(items[1..], table1, base);
      ([head] + rest, table2)
  }

  /** The `for...in` copy of an object: same keys, values rewritten in order. */
  function ExtractFields(fields: seq<Member>, table: seq<Upload>, base: nat): (r: (seq<Member>, seq<Upload>))
    ensures Names(r.0) == Names(fields)
    ensures r.1 == table + UploadsOfFields(fields)
    ensures forall i :: 0 <= i < |fields| ==> UploadFree(r.0[i].value) && SameShape(fields[i].value, r.0[i].value)
    decreases fields, 0
  {
    if fields == [] then ([], table)
    else
      var (head, table1) := Extract(fields[0].value, table, base);
      var (rest, table2) := ExtractFields(fields[1..], table1, base);
      ([Member(fields[0].name, head)] + rest, table2)
  }

  /**
   * No object of the token's shape occurs in `v`: the caller wrote no
   * literal `{ uploadKey: n }` that a token could be confused with.
   */
  predicate NoTokens(v: Value)
    decreases v, 1
  {
    match v
    case Array(items) => forall i :: 0 <= i < |items| ==> NoTokens(items[i])
    case Object(fields) => !IsToken(v) && forall i :: 0 <= i < |fields| ==> NoTokens(fields[i].value)
    case _ => true
  }

  /**
   * The receiving side's inverse: every token whose key names an entry of
   * the table becomes that upload again.
   */
  function Restore(t: Value, table: seq<Upload>, base: nat): Value
    decreases t, 1
  {
    match t
    case Array(items) => Array(RestoreItems(items, table, base))
    case Object(fields) =>
      if IsToken(t) && base <= t.fields[0].value.p.n < base + |table|
      then File(table[t.fields[0].value.p.n - base])
      else Object(RestoreFields(fields, table, base))
    case _ => t
  }

  function RestoreItems(items: seq<Value>, table: seq<Upload>, base: nat): seq<Value>
    decreases items, 0
  {
    if items == [] then [] else [Restore(items[0], table, base)] + RestoreItems(items[1..], table, base)
  }

  function RestoreFields(fields: seq<Member>, table: seq<Upload>, base: nat): seq<Member>
    decreases fields, 0
  {
    if fields == [] then []
    else [Member(fields[0].name, Restore(fields[0].value, table, base))] + RestoreFields(fields[1..], table, base)
  }

  /**
   * The walk loses nothing: the n-th upload met is stored at index n of
   * the table (key `base + n`), the tree sent carries no upload, and
   * putting the uploads back at their tokens gives the caller's tree.
   */
  lemma ExtractRoundTrip(v: Value, base: nat)
    requires NoTokens(v)
    ensures Extract(v, [], base).1 == UploadsOf(v)
    ensures UploadFree(Extract(v, [], base).0)
    ensures Restore(Extract(v, [], base).0, Extract(v, [], base).1, base) == v
  {
    RestoreExtract(v, [], base, Extract(v, [], base).1);
  }

  lemma {:induction false} RestoreExtract(v: Value, table: seq<Upload>, base: nat, full: seq<Upload>)
    requires NoTokens(v)
    requires Extract(v, table, base).1 <= full
    ensures Restore(Extract(v, table, base).0, full, base) == v
    decreases v, 1
  {
    match v
    case Null =>
    case Prim(_) =>
    case File(u) =>
      assert full[|table|] == u;
    case Array(items) =>
      RestoreExtractItems(items, table, base, full);
    case Object(fields) =>
      var fields' := ExtractFields(fields, table, base).0;
      RestoreExtractFields(fields, table, base, full);
      assert !IsToken(Object(fields')) by {
        if |fields| == 1 {
          assert SameShape(fields[0].value, fields'[0].value);
        }
      }
  }

  lemma {:induction false} RestoreExtractItems(items: seq<Value>, table: seq<Upload>, base: nat, full: seq<Upload>)
    requires forall i :: 0 <= i < |items| ==> NoTokens(items[i])
    requires ExtractItems(items, table, base).1 <= full
    ensures RestoreItems(ExtractItems(items, table, base).0, full, base) == items
    decreases items, 0
  {
    if items != [] {
      var table1 := Extract(items[0], table, base).1;
      assert ExtractItems(items, table, base).1 == ExtractItems(items[1..], table1, base).1;
      RestoreExtract(items[0], table, base, full);
      RestoreExtractItems(items[1..], table1, base, full);
    }
  }

  lemma {:induction false} RestoreExtractFields(fields: seq<Member>, table: seq<Upload>, base: nat, full: seq<Upload>)
    requires forall i :: 0 <= i < |fields| ==> NoTokens(fields[i].value)
    requires ExtractFields(fields, table, base).1 <= full
    ensures RestoreFields(ExtractFields(fields, table, base).0, full, base) == fields
    decreases fields, 0
  {
    if fields != [] {
      var table1 := Extract(fields[0].value, table, base).1;
      assert ExtractFields(fields, table, base).1 == ExtractFields(fields[1..], table1, base).1;
      RestoreExtract(fields[0].value, table, base, full);
      RestoreExtractFields(fields[1..], table1, base, full);
    }
  }
}
