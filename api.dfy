/** The one door to the server (`api.js`): `apiCall(endpoint, method,
    body)` sends the request with the stored token and hands back the
    response whatever its status, except that a network failure or a 401
    answer throws (after sending the browser to the login page). */
module Api {

  datatype Method = Get | Post | Put | Delete

  /** One call of `apiCall`: where it goes and with which method. */
  datatype Call = Call(endpoint: string, verb: Method)

  /** How the server answered: not at all (the network failed), or with
      an HTTP status. */
  datatype Reply = NetworkError | Status(code: int)

  /** What `await res.json()` of a list request left behind: the request
      or the parsing threw, the body parsed to something that is not a
      list (an error object, say), or a list of records. */
  datatype Loaded<T> = Threw | NotAList | Listed(items: seq<T>)

  /** `apiCall` throws. */
  predicate Throws(r: Reply)
  {
    r.NetworkError? || r.code == 401
  }

  /** `res.ok` of the response `apiCall` returned. */
  predicate IsOk(r: Reply)
  {
    r.Status? && 200 <= r.code <= 299
  }

  /** A reply that throws is never ok, and an answer that is neither ok
      nor 401 comes back without throwing: callers that only catch see
      a refused request as a success. */
  lemma ThrowsOrAnswers(r: Reply)
    ensures Throws(r) ==> !IsOk(r)
    ensures r.Status? && r.code != 401 ==> !Throws(r)
    ensures Throws(r) <==> r == NetworkError || r == Status(401)
  {
  }
}
