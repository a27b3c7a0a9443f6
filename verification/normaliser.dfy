/**
 * The response normaliser shared by the one-shot and the streaming paths:
 * a server envelope becomes one error, `null`, or a map from field name to
 * that field's unwrapped value.
 *
 * The two protocol revisions name the envelope's field map differently
 * (`result` in src/Response.ts, `data` in src/Response.js); that name is
 * part of JSON decoding, so both revisions map onto the same `Envelope`.
 */
module Normaliser {
  import opened Json

  /** A server error `{ code, message }`; the code may be `null`. */
  datatype ErrorInfo = ErrorInfo(code: Option<int>, message: string)

  /** One field of the envelope: its value and its own error, if any. */
  datatype FieldEntry = FieldEntry(value: Value, error: Option<ErrorInfo>)

  /**
   * The envelope: the field map in iteration order (`None` when the server
   * sent `null`) and the top-level error.
   */
  datatype Envelope = Envelope(fields: Option<seq<(string, FieldEntry)>>, error: Option<ErrorInfo>)

  /** What normalising gives: a thrown error, `null`, or the field values. */
  datatype Outcome = Err(info: ErrorInfo) | NoData | Values(values: map<string, Value>)

  /**
   * The field loop from some position on, `acc` holding the values
   * collected so far: the first field with an error ends it with that
   * error; otherwise each value is stored under its field's name.
   */
  function Collect(fields: seq<(string, FieldEntry)>, acc: map<string, Value>): (o: Outcome)
    ensures !o.NoData?
  {
    if fields == [] then Values(acc)
    else if fields[0].1.error.Some? then Err(fields[0].1.error.value)
    else Collect(fields[1..], acc[fields[0].0 := fields[0].1.value])
  }

  /** `data()` of src/Response.js, the same computation as `process()` of src/Response.ts. */
  function Normalise(env: Envelope): (o: Outcome)
    ensures env.error.Some? ==> o == Err(env.error.value)
    ensures o.NoData? <==> env.error.None? && env.fields.None?
  {
    if env.error.Some? then Err(env.error.value)
    else if env.fields.None? then NoData
    else Collect(env.fields.value, map[])
  }

  /** No field before position `i` carries an error. */
  predicate NoErrorBefore(fields: seq<(string, FieldEntry)>, i: nat)
    requires i <= |fields|
  {
    forall j :: 0 <= j < i ==> fields[j].1.error.None?
  }

  /** No later field has the same name as field `i`. */
  predicate LastOfName(fields: seq<(string, FieldEntry)>, i: nat)
    requires i < |fields|
  {
    forall j :: i < j < |fields| ==> fields[j].0 != fields[i].0
  }

  /** The set of field names. */
  function NameSet(fields: seq<(string, FieldEntry)>): set<string> {
    set i | 0 <= i < |fields| :: fields[i].0
  }

  lemma {:induction false} CollectFirstError(fields: seq<(string, FieldEntry)>, acc: map<string, Value>, i: nat)
    requires i < |fields| && fields[i].1.error.Some? && NoErrorBefore(fields, i)
    ensures Collect(fields, acc) == Err(fields[i].1.error.value)
  {
    if i > 0 {
      CollectFirstError(fields[1..], acc[fields[0].0 := fields[0].1.value], i - 1);
    }
  }

  lemma {:induction false} CollectNoError(fields: seq<(string, FieldEntry)>, acc: map<string, Value>)
    requires NoErrorBefore(fields, |fields|)
    ensures Collect(fields, acc).Values?
    ensures Collect(fields, acc).values.Keys == acc.Keys + NameSet(fields)
    ensures forall i :: 0 <= i < |fields| && LastOfName(fields, i) ==>
      Collect(fields, acc).values[fields[i].0] == fields[i].1.value
    ensures forall k :: k in acc && k !in NameSet(fields) ==> Collect(fields, acc).values[k] == acc[k]
  {
    if fields != [] {
      var rest, acc' := fields[1..], acc[fields[0].0 := fields[0].1.value];
      CollectNoError(rest, acc');
      assert NameSet(fields) == {fields[0].0} + NameSet(rest) by {
        forall n | n in NameSet(fields) ensures n in {fields[0].0} + NameSet(rest) {
          var i :| 0 <= i < |fields| && fields[i].0 == n;
          if i > 0 { assert rest[i - 1].0 == n; }
        }
      }
      var m := Collect(fields, acc).values;
      forall i | 0 <= i < |fields| && LastOfName(fields, i) ensures m[fields[i].0] == fields[i].1.value {
        if i == 0 {
          assert fields[0].0 !in NameSet(rest);
        } else {
          assert LastOfName(rest, i - 1);
        }
      }
    }
  }

  /**
   * A top-level error wins whatever the fields hold; otherwise the first
   * field in iteration order with an error decides, and the values
   * collected before it are dropped.
   */
  lemma FirstFieldErrorWins(env: Envelope, i: nat)
    requires env.error.None? && env.fields.Some?
    requires i < |env.fields.value| && env.fields.value[i].1.error.Some?
    requires NoErrorBefore(env.fields.value, i)
    ensures Normalise(env) == Err(env.fields.value[i].1.error.value)
  {
    CollectFirstError(env.fields.value, map[], i);
  }

  /**
   * With no error anywhere the result has exactly the envelope's field
   * names, each mapped to its entry's value (the last one, should a name
   * repeat).
   */
  lemma NoErrorGivesValues(env: Envelope)
    requires env.error.None? && env.fields.Some?
    requires NoErrorBefore(env.fields.value, |env.fields.value|)
    ensures Normalise(env).Values?
    ensures Normalise(env).values.Keys == NameSet(env.fields.value)
    ensures forall i :: 0 <= i < |env.fields.value| && LastOfName(env.fields.value, i) ==>
      Normalise(env).values[env.fields.value[i].0] == env.fields.value[i].1.value
  {
    CollectNoError(env.fields.value, map[]);
  }

  /**
   * The converse direction: an error outcome comes from the top-level
   * error or from some field's error, and a value outcome means no field
   * had one.
   */
  lemma {:induction false} CollectErrorSource(fields: seq<(string, FieldEntry)>, acc: map<string, Value>)
    ensures Collect(fields, acc).Err? <==> !NoErrorBefore(fields, |fields|)
    ensures Collect(fields, acc).Err? ==>
      exists i :: 0 <= i < |fields| && fields[i].1.error == Some(Collect(fields, acc).info)
  {
    if fields != [] && fields[0].1.error.None? {
      var rest := fields[1..];
      CollectErrorSource(rest, acc[fields[0].0 := fields[0].1.value]);
      if Collect(fields, acc).Err? {
        var i :| 0 <= i < |rest| && rest[i].1.error == Some(Collect(fields, acc).info);
        assert fields[i + 1] == rest[i];
      }
      if !NoErrorBefore(fields, |fields|) {
        var i :| 0 <= i < |fields| && fields[i].1.error.Some?;
        assert rest[i - 1] == fields[i];
      }
    }
  }

  /**
   * `process()` of src/Response.ts: the `for...in` loop that fills
   * `results`, stops at the first field error, and writes the cache once.
   */
  method Process(env: Envelope) returns (o: Outcome)
    ensures o == Normalise(env)
  {
    if env.error.Some? {
      return Err(env.error.value);
    }
    if env.fields.None? {
      return NoData;
    }
    var fields := env.fields.value;
    var results: map<string, Value> := map[];
    var i := 0;
    while i < |fields|
      invariant 0 <= i <= |fields|
      invariant Collect(fields[i..], results) == Collect(fields, map[])
    {
      var (key, result) := fields[i];
      if result.error.Some? {
        return Err(result.error.value);
      }
      assert fields[i..][1..] == fields[i + 1..];
      results := results[key := result.value];
      i := i + 1;
    }
    return Values(results);
  }
}
