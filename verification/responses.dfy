/**
 * The `Response` objects handed to `response` listeners.
 */
module Responses {
  import opened Normaliser

  /**
   * src/Response.ts: the constructor runs `process()` once and caches the
   * outcome; `result()` throws the cached error or returns the cached
   * value, so every call gives the same answer.
   */
  class Response {
    const response: Envelope
    const cache: Outcome

    /** The cache holds the normalised envelope. */
    ghost predicate Valid() {
      cache == Normalise(response)
    }

    constructor (response: Envelope)
      ensures this.response == response
      ensures Valid()
      ensures Raw() == response && Result() == Normalise(response)
    {
      var outcome := Process(response);
      this.response := response;
      cache := outcome;
    }

    /** `raw()`: the envelope as received; normalising it gives the cached outcome. */
    function Raw(): (e: Envelope)
      ensures e == response
      ensures Valid() ==> Normalise(e) == cache
    {
      response
    }

    /** `result()`: `Err` stands for the thrown `ErrorWithCode`. */
    function Result(): (o: Outcome)
      requires Valid()
      ensures o == Normalise(Raw())
    {
      cache
    }
  }

  /**
   * src/Response.js: nothing is cached; `data()` recomputes the outcome
   * from the stored envelope on each call.
   */
  class LegacyResponse {
    const response: Envelope

    constructor (response: Envelope)
      ensures this.response == response
      ensures Json() == response
    {
      this.response := response;
    }

    /** `json()`: the envelope as received. */
    function Json(): (e: Envelope)
      ensures e == response
    {
      response
    }

    /**
     * `data()`: `Err` stands for the thrown `Error`. A top-level error is
     * thrown whatever the fields hold; `null` comes back exactly when there
     * is no error and no field map.
     */
    function Data(): (o: Outcome)
      ensures o == Normalise(Json())
      ensures response.error.Some? ==> o == Err(response.error.value)
      ensures o.NoData? <==> response.error.None? && response.fields.None?
    {
      Normalise(response)
    }
  }
}
