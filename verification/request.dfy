/**
 * The one-shot `request` call: the HTTP request it builds from the endpoint
 * tree, and what it emits and returns (or throws) for each way the fetch
 * can end.
 */
module Request {
  import opened Json
  import opened Uploads
  import opened Query
  import opened Normaliser
  import opened Signals

  /** The first upload key: `uploads.size` in src/Client.ts, `uploads.size + 1` in src/Client.js. */
  function UploadBase(rev: Revision): nat {
    if rev.Current? then 0 else 1
  }

  /** One multipart entry: an upload appended under its decimal key. */
  datatype Part = Part(key: nat, upload: Upload)

  /**
   * The fetch call: URL, method, the `endpoints` entry (the tree with every
   * upload replaced by its token), the upload parts in key order, and the
   * headers option (absent when no header map is set).
   */
  datatype HttpRequest = HttpRequest(url: string, verb: string, endpoints: Value, parts: seq<Part>, headers: Option<Headers>)

  /** `uploads.forEach`: the side table in insertion order, each under its key. */
  function Parts(table: seq<Upload>, base: nat): (ps: seq<Part>)
    ensures |ps| == |table|
    ensures forall i :: 0 <= i < |table| ==> ps[i] == Part(base + i, table[i])
  {
    seq(|table|, i requires 0 <= i < |table| => Part(base + i, table[i]))
  }

  /** The side table the receiving side rebuilds from the parts. */
  function Table(ps: seq<Part>): (table: seq<Upload>)
    ensures |table| == |ps|
    ensures forall i :: 0 <= i < |ps| ==> table[i] == ps[i].upload
  {
    seq(|ps|, i requires 0 <= i < |ps| => ps[i].upload)
  }

  /**
   * The request `request` sends: a POST to the configured URL whose
   * `endpoints` entry holds no upload and has the caller's shape, and one
   * part per upload found, the n-th (in traversal order) under key
   * base + n.
   */
  function BuildRequest(rev: Revision, url: string, headers: Option<Headers>, endpoints: Value): (r: HttpRequest)
    ensures r.url == url && r.verb == "POST" && r.headers == headers
    ensures UploadFree(r.endpoints) && SameShape(endpoints, r.endpoints)
    ensures |r.parts| == |UploadsOf(endpoints)|
    ensures forall i :: 0 <= i < |r.parts| ==> r.parts[i] == Part(UploadBase(rev) + i, UploadsOf(endpoints)[i])
  {
    var (tree, table) := Extract(endpoints, [], UploadBase(rev));
    HttpRequest(url, "POST", tree, Parts(table, UploadBase(rev)), headers)
  }

  /**
   * A server that puts every part back where its token stands gets the
   * caller's tree back, uploads included.
   */
  lemma RequestRoundTrip(rev: Revision, url: string, headers: Option<Headers>, endpoints: Value)
    requires NoTokens(endpoints)
    ensures Restore(BuildRequest(rev, url, headers, endpoints).endpoints,
                    Table(BuildRequest(rev, url, headers, endpoints).parts), UploadBase(rev)) == endpoints
  {
    var r := BuildRequest(rev, url, headers, endpoints);
    ExtractRoundTrip(endpoints, UploadBase(rev));
    assert Table(r.parts) == Extract(endpoints, [], UploadBase(rev)).1;
  }

  /** How the fetch ended: it or the JSON parse failed, or an envelope came back. */
  datatype Answer = Rejected(reason: string) | Answered(env: Envelope)

  /**
   * How the call ends: it throws, it resolves to the field values (`null`
   * when there are none), or it resolves to the `Response` object.
   */
  datatype Completion =
    | Threw(failure: Failure)
    | Returned(value: Option<map<string, Value>>)
    | ReturnedResponse(env: Envelope)

  /** The field values a non-error outcome stands for. */
  function ValuesOf(o: Outcome): Option<map<string, Value>> {
    if o.Values? then Some(o.values) else None
  }

  /**
   * What a request emits and how it ends. src/Client.ts throws every
   * failure, a protocol error included, after emitting it; src/Client.js
   * throws only a fetch failure and otherwise resolves to the response,
   * emitting a protocol error without throwing it.
   */
  function Flow(rev: Revision, answer: Answer): (r: (seq<Signal>, Completion))
    ensures |r.0| >= 1
    ensures r.1.Threw? <==> answer.Rejected? || (rev.Current? && Normalise(answer.env).Err?)
    ensures r.1.Threw? ==> r.0[|r.0| - 1] == Error(r.1.failure)
    ensures r.0[|r.0| - 1].Error? <==> answer.Rejected? || Normalise(answer.env).Err?
    ensures answer.Rejected? ==> r == ([Error(Transport(answer.reason))], Threw(Transport(answer.reason)))
    ensures answer.Answered? ==> r.0[0] == ResponseSignal(answer.env)
    ensures answer.Answered? && rev.Legacy? ==> r.1 == ReturnedResponse(answer.env)
    ensures answer.Answered? && !Normalise(answer.env).Err? ==>
      r.0 == [ResponseSignal(answer.env), Success, ValueSignal(rev, ValuesOf(Normalise(answer.env)))]
    ensures r.1.Returned? ==> rev.Current? && r.1.value == ValuesOf(Normalise(answer.env))
    ensures answer.Answered? && Normalise(answer.env).Err? ==>
      r.0 == [ResponseSignal(answer.env), Error(Protocol(Normalise(answer.env).info))]
    ensures answer.Answered? && rev.Current? && Normalise(answer.env).Err? ==>
      r.1 == Threw(Protocol(Normalise(answer.env).info))
    ensures answer.Answered? && rev.Current? && !Normalise(answer.env).Err? ==>
      r.1 == Returned(ValuesOf(Normalise(answer.env)))
  {
    match answer
    case Rejected(reason) => ([Error(Transport(reason))], Threw(Transport(reason)))
    case Answered(env) =>
      var o := Normalise(env);
      var signals :=
        if o.Err? then [ResponseSignal(env), Error(Protocol(o.info))]
        else [ResponseSignal(env), Success, ValueSignal(rev, ValuesOf(o))];
      if rev.Legacy? then (signals, ReturnedResponse(env))
      else if o.Err? then (signals, Threw(Protocol(o.info)))
      else (signals, Returned(ValuesOf(o)))
  }
}
