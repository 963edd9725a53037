/** The provider's error table and the normalisation `_call_api` applies to
    every parsed response body. */
module Responses {

  /** A parsed JSON value (floating-point numbers are not modelled). */
  datatype Json =
    | Null
    | Bool(b: bool)
    | Number(n: int)
    | Text(s: string)
    | Array(items: seq<Json>)
    | Object(fields: map<string, Json>)

  /** The code the provider uses to report an empty result. */
  const EmptyResult: int := 19

  /** `ERRORS` (lines 13-44): the provider's error codes and their messages,
      rendered in English. */
  const Errors: map<int, string> := map[
    1 := "signature not given",
    2 := "login not given",
    3 := "text not given",
    4 := "phone not given",
    5 := "sender not given",
    6 := "incorrect signature",
    7 := "incorrect login",
    8 := "incorrect sender name",
    9 := "sender name not registered",
    10 := "sender name not approved",
    11 := "text contains forbidden words",
    12 := "error sending SMS",
    13 := "number is on the stop list; sending to it is forbidden",
    14 := "more than 50 numbers in the request",
    15 := "base not given",
    16 := "incorrect number",
    17 := "SMS IDs not given",
    18 := "status not received",
    19 := "empty response",
    20 := "number already exists",
    21 := "name missing",
    22 := "template already exists",
    23 := "month not given (format: YYYY-MM)",
    24 := "timestamp not given",
    25 := "base access error",
    26 := "base holds no numbers",
    27 := "no valid numbers",
    28 := "start date not given",
    29 := "end date not given",
    30 := "date not given (format: YYYY-MM-DD)"
  ]

  /** The table knows exactly the codes 1 to 30. */
  lemma ErrorsDomain()
    ensures forall c :: c in Errors <==> 1 <= c <= 30
  {
    forall c ensures c in Errors <==> 1 <= c <= 30 {
      if 1 <= c <= 30 {
        assert c in Errors.Keys;
      }
    }
  }

  /** The table key an `error` value hits: a Python dict lookup finds an
      integer under its own value and a boolean under 0 or 1; any other JSON
      value finds no entry. */
  function ErrorKey(v: Json): (k: int)
    requires v.Number? || v.Bool?
  {
    match v
    case Number(n) => n
    case Bool(b) => if b then 1 else 0
  }

  /** The code's table lookup at line 97 succeeds for this value. */
  predicate HasMessage(v: Json)
  {
    (v.Number? || v.Bool?) && ErrorKey(v) in Errors
  }

  /** What a call gives its caller. */
  datatype Outcome =
    | NoData                                   // `return None`
    | Data(body: map<string, Json>)            // `return response`
    | ServerError(code: int, message: string)  // `raise ServerResponsedWithError(msg)`
    | UnknownError(error: Json)                // the lookup at line 97 fails

  /** Lines 91-99: an empty body and the empty-result code give no data, any
      other error value raises with its table message (or fails the lookup),
      and everything else is handed back as it came. */
  function Normalise(body: map<string, Json>): (r: Outcome)
  {
    if body == map[] then NoData
    else if "error" in body then
      var e := body["error"];
      if e == Number(EmptyResult) then NoData
      else if HasMessage(e) then ServerError(ErrorKey(e), Errors[ErrorKey(e)])
      else UnknownError(e)
    else Data(body)
  }

  /** No data exactly for an empty body or the empty-result code. */
  lemma NormaliseNoData(body: map<string, Json>)
    ensures Normalise(body) == NoData
            <==> body == map[] || ("error" in body && body["error"] == Number(EmptyResult))
  {
  }

  /** A body without an `error` key that is not empty comes back unchanged,
      and only such a body comes back as data. */
  lemma NormalisePayload(body: map<string, Json>)
    ensures Normalise(body).Data? <==> body != map[] && "error" !in body
    ensures Normalise(body).Data? ==> Normalise(body).body == body
  {
  }

  /** A raised error always carries the table message of its code, and the
      empty-result code never raises. */
  lemma NormaliseServerError(body: map<string, Json>)
    ensures Normalise(body).ServerError? ==>
              && "error" in body
              && HasMessage(body["error"])
              && Normalise(body).code == ErrorKey(body["error"])
              && Normalise(body).code in Errors
              && Normalise(body).message == Errors[Normalise(body).code]
              && Normalise(body).code != EmptyResult
  {
  }

  /** Every table code other than 19 raises with its own message. */
  lemma TableCodeRaises(body: map<string, Json>, c: int)
    requires "error" in body && body["error"] == Number(c)
    requires 1 <= c <= 30 && c != EmptyResult
    ensures Normalise(body) == ServerError(c, Errors[c])
  {
    ErrorsDomain();
  }

  /** A code outside 1..30 has no table entry: the lookup fails. */
  lemma UnknownCodeFails(body: map<string, Json>, c: int)
    requires "error" in body && body["error"] == Number(c)
    requires c < 1 || c > 30
    ensures Normalise(body) == UnknownError(Number(c))
  {
    ErrorsDomain();
  }

  /** The responses the client's tests feed it. */
  lemma NormaliseExamples(balance: map<string, Json>, seven: map<string, Json>, nineteen: map<string, Json>)
    requires balance == map["money" := Text("69573.1"), "currency" := Text("RUR")]
    requires seven == map["error" := Number(7)]
    requires nineteen == map["error" := Number(19)]
    ensures Normalise(balance) == Data(balance) && "money" in Normalise(balance).body
    ensures Normalise(seven) == ServerError(7, "incorrect login")
    ensures Normalise(nineteen) == NoData
  {
    assert "money" in balance;
    assert "error" !in balance;
  }
}
