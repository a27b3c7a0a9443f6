/**
 * The streaming connection's URL. The socket primitive takes no headers,
 * so `openWebSocket` appends the header map as a query string:
 * `wsUrl?k1=v1&k2=v2`, every key and value passed through
 * `encodeURIComponent`, which is a parameter here (`encode`).
 */
module Query {
  import opened Json

  /** `Object.entries(headers)`: the header pairs in order. */
  type Headers = seq<(string, string)>

  /** `Array.prototype.join(sep)`. */
  function Join(parts: seq<string>, sep: char): string {
    if parts == [] then ""
    else if |parts| == 1 then parts[0]
    else parts[0] + [sep] + Join(parts[1..], sep)
  }

  /** `entry.map(encodeURIComponent).join("=")` for one header. */
  function Entry(header: (string, string), encode: string -> string): string {
    Join([encode(header.0), encode(header.1)], '=')
  }

  /** The query string: the encoded entries joined with `&`. */
  function QueryString(headers: Headers, encode: string -> string): string {
    Join(seq(|headers|, i requires 0 <= i < |headers| => Entry(headers[i], encode)), '&')
  }

  /**
   * The URL a new socket is opened with: the configured URL, followed by
   * `?` and the query string exactly when a header map is set (an empty
   * map still adds the `?`).
   */
  function SocketUrl(wsUrl: string, headers: Option<Headers>, encode: string -> string): (url: string)
    ensures wsUrl <= url
    ensures headers.None? <==> url == wsUrl
    ensures headers.Some? ==> url[|wsUrl|] == '?' && url[|wsUrl| + 1..] == QueryString(headers.value, encode)
  {
    if headers.None? then wsUrl else wsUrl + "?" + QueryString(headers.value, encode)
  }

  /** The first position of `c` in `s`. */
  function IndexOf(s: string, c: char): (i: nat)
    requires c in s
    ensures i < |s| && s[i] == c && c !in s[..i]
  {
    if s[0] == c then 0 else 1 + IndexOf(s[1..], c)
  }

  /** The receiving side: cut `s` at every `sep`. */
  function Split(s: string, sep: char): (parts: seq<string>)
    ensures |parts| >= 1
    decreases |s|
  {
    if sep !in s then [s]
    else
      var i := IndexOf(s, sep);
      [s[..i]] + Split(s[i + 1..], sep)
  }

  lemma {:induction false} IndexOfFirst(s: string, c: char, k: nat)
    requires k < |s| && s[k] == c && c !in s[..k]
    ensures IndexOf(s, c) == k
  {
    if k > 0 {
      assert s[0] in s[..k];
      assert s[1..][..k - 1] == s[1..k];
      IndexOfFirst(s[1..], c, k - 1);
    }
  }

  lemma {:induction false} SplitJoin(parts: seq<string>, sep: char)
    requires |parts| >= 1
    requires forall i :: 0 <= i < |parts| ==> sep !in parts[i]
    ensures Split(Join(parts, sep), sep) == parts
  {
    if |parts| > 1 {
      var s := Join(parts, sep);
      assert s == parts[0] + [sep] + Join(parts[1..], sep);
      assert s[|parts[0]|] == sep;
      assert s[..|parts[0]|] == parts[0];
      IndexOfFirst(s, sep, |parts[0]|);
      assert s[|parts[0]| + 1..] == Join(parts[1..], sep);
      SplitJoin(parts[1..], sep);
    }
  }

  /**
   * Since `encode` never leaves a `&` or `=` unescaped, a non-empty query
   * string splits back into one entry per header, each entry into the
   * encoded key and the encoded value.
   */
  lemma QueryStringRoundTrip(headers: Headers, encode: string -> string)
    requires |headers| >= 1
    requires forall s :: '&' !in encode(s) && '=' !in encode(s)
    ensures |Split(QueryString(headers, encode), '&')| == |headers|
    ensures forall i :: 0 <= i < |headers| ==>
      Split(Split(QueryString(headers, encode), '&')[i], '=') == [encode(headers[i].0), encode(headers[i].1)]
  {
    var entries := seq(|headers|, i requires 0 <= i < |headers| => Entry(headers[i], encode));
    forall i | 0 <= i < |headers| ensures '&' !in entries[i] {
      var pair := [encode(headers[i].0), encode(headers[i].1)];
      assert entries[i] == Join(pair, '=');
      assert pair[1..] == [pair[1]];
      assert Join(pair, '=') == pair[0] + "=" + pair[1];
    }
    SplitJoin(entries, '&');
    forall i | 0 <= i < |headers|
      ensures Split(entries[i], '=') == [encode(headers[i].0), encode(headers[i].1)]
    {
      SplitJoin([encode(headers[i].0), encode(headers[i].1)], '=');
    }
  }
}
