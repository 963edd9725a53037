/** `MobilVestApi`: a client that holds the account's login and secret key,
    signs every request, sends it and normalises the reply. The timestamp the
    client fetches before each call is passed in, the provider is a function
    from request to parsed reply, and the digest (MD5 in hex) is a function the
    client is built with. */
module Client {
  import opened Strings
  import opened Signing
  import opened Responses
  import opened Dates

  const BaseUrl: string := "http://online.mobilvest.ru/get/"

  /** An outgoing GET: the endpoint's URL and its query parameters. */
  datatype Request = Request(url: string, query: map<string, Value>)

  /** The provider: what it answers to a request, as a parsed JSON object. */
  type Server = Request -> map<string, Json>

  class MobilVestApi {
    const login: string
    const apiKey: string
    const digest: string -> string

    constructor (login: string, apiKey: string, digest: string -> string)
      ensures this.login == login && this.apiKey == apiKey && this.digest == digest
    {
      this.login := login;
      this.apiKey := apiKey;
      this.digest := digest;
    }

    /** `_prepare_params`: copy the caller's parameters, write the three
        reserved keys over them, and add the signature last. */
    method PrepareParams(params: map<string, Value>, timestamp: int) returns (result: map<string, Value>)
      ensures result == Signed(params, login, apiKey, timestamp, digest)
    {
      result := params - {"signature"};
      result := result["login" := Str(login)];
      result := result["timestamp" := Int(timestamp)];
      result := result["return" := Str("json")];
      var canonical := Canonical(result);
      result := result["signature" := Str(digest(canonical + apiKey))];
    }

    /** `_call_api`: sign the parameters, send them to the endpoint's URL and
        normalise the reply. */
    method CallApi(path: string, params: map<string, Value>, timestamp: int, server: Server)
      returns (request: Request, outcome: Outcome)
      ensures request.url == BaseUrl + path
      ensures request.query == Signed(params, login, apiKey, timestamp, digest)
      ensures outcome == Normalise(server(request))
    {
      var query := PrepareParams(params, timestamp);
      request := Request(BaseUrl + path, query);
      var response := server(request);
      outcome := Normalise(response);
    }

    /** `get_balance`. */
    method GetBalance(timestamp: int, server: Server) returns (request: Request, outcome: Outcome)
      ensures request.url == BaseUrl + "balance.php"
      ensures request.query == Signed(map[], login, apiKey, timestamp, digest)
      ensures outcome == Normalise(server(request))
    {
      request, outcome := CallApi("balance.php", map[], timestamp, server);
    }

    /** `get_base`. */
    method GetBase(timestamp: int, server: Server) returns (request: Request, outcome: Outcome)
      ensures request.url == BaseUrl + "base.php"
      ensures request.query == Signed(map[], login, apiKey, timestamp, digest)
      ensures outcome == Normalise(server(request))
    {
      request, outcome := CallApi("base.php", map[], timestamp, server);
    }

    /** `get_senders`. */
    method GetSenders(timestamp: int, server: Server) returns (request: Request, outcome: Outcome)
      ensures request.url == BaseUrl + "senders.php"
      ensures request.query == Signed(map[], login, apiKey, timestamp, digest)
      ensures outcome == Normalise(server(request))
    {
      request, outcome := CallApi("senders.php", map[], timestamp, server);
    }

    /** `get_phone`: one page of a contact base. */
    method GetPhone(base: Value, page: Value, timestamp: int, server: Server)
      returns (request: Request, outcome: Outcome)
      ensures request.url == BaseUrl + "phone.php"
      ensures request.query == Signed(map["base" := base, "page" := page], login, apiKey, timestamp, digest)
      ensures outcome == Normalise(server(request))
    {
      request, outcome := CallApi("phone.php", map["base" := base, "page" := page], timestamp, server);
    }

    /** `get_status`: one message ID, or a list of them sent as one
        comma-separated string. */
    method GetStatus(state: Arg, timestamp: int, server: Server) returns (request: Request, outcome: Outcome)
      ensures request.url == BaseUrl + "status.php"
      ensures request.query == Signed(map["state" := Flatten(state)], login, apiKey, timestamp, digest)
      ensures "state" in request.query && request.query["state"] == Flatten(state)
      ensures outcome == Normalise(server(request))
    {
      var params: map<string, Value>;
      if state.Many? {
        params := map["state" := Str(ListToStr(state.items))];
      } else {
        params := map["state" := state.value];
      }
      request, outcome := CallApi("status.php", params, timestamp, server);
    }

    /** `send_sms`: the sender and text, then the phone number or the
        comma-separated list of numbers. */
    method SendSms(phone: Arg, text: Value, sender: Value, timestamp: int, server: Server)
      returns (request: Request, outcome: Outcome)
      ensures request.url == BaseUrl + "send.php"
      ensures request.query == Signed(map["sender" := sender, "text" := text, "phone" := Flatten(phone)],
                                      login, apiKey, timestamp, digest)
      ensures forall k :: k in request.query <==> k in {"sender", "text", "phone"} || k in SignedKeys
      ensures request.query["phone"] == Flatten(phone)
      ensures outcome == Normalise(server(request))
    {
      var params := map["sender" := sender, "text" := text];
      if phone.Many? {
        params := params["phone" := Str(ListToStr(phone.items))];
      } else {
        params := params["phone" := phone.value];
      }
      assert params == map["sender" := sender, "text" := text, "phone" := Flatten(phone)];
      request, outcome := CallApi("send.php", params, timestamp, server);
      SignedDomain(params, login, apiKey, timestamp, digest);
    }

    /** `find_on_stop`: look a number up in the stop list. */
    method FindOnStop(phone: Value, timestamp: int, server: Server) returns (request: Request, outcome: Outcome)
      ensures request.url == BaseUrl + "find_on_stop.php"
      ensures request.query == Signed(map["phone" := phone], login, apiKey, timestamp, digest)
      ensures outcome == Normalise(server(request))
    {
      request, outcome := CallApi("find_on_stop.php", map["phone" := phone], timestamp, server);
    }

    /** `add_to_stop`: put a number on the stop list. */
    method AddToStop(phone: Value, timestamp: int, server: Server) returns (request: Request, outcome: Outcome)
      ensures request.url == BaseUrl + "add2stop.php"
      ensures request.query == Signed(map["phone" := phone], login, apiKey, timestamp, digest)
      ensures outcome == Normalise(server(request))
    {
      request, outcome := CallApi("add2stop.php", map["phone" := phone], timestamp, server);
    }

    /** `get_template`. */
    method GetTemplate(timestamp: int, server: Server) returns (request: Request, outcome: Outcome)
      ensures request.url == BaseUrl + "template.php"
      ensures request.query == Signed(map[], login, apiKey, timestamp, digest)
      ensures outcome == Normalise(server(request))
    {
      request, outcome := CallApi("template.php", map[], timestamp, server);
    }

    /** `add_template`. */
    method AddTemplate(name: Value, text: Value, timestamp: int, server: Server)
      returns (request: Request, outcome: Outcome)
      ensures request.url == BaseUrl + "add_template.php"
      ensures request.query == Signed(map["name" := name, "text" := text], login, apiKey, timestamp, digest)
      ensures outcome == Normalise(server(request))
    {
      request, outcome := CallApi("add_template.php", map["name" := name, "text" := text], timestamp, server);
    }

    /** `stat_by_month`: the month goes out as `YYYY-MM`. */
    method StatByMonth(year: int, month: int, timestamp: int, server: Server)
      returns (request: Request, outcome: Outcome)
      requires ValidMonth(year, month)
      ensures request.url == BaseUrl + "stat_by_month.php"
      ensures request.query == Signed(map["month" := Str(MonthString(year, month))], login, apiKey, timestamp, digest)
      ensures "month" in request.query && request.query["month"].Str?
      ensures |request.query["month"].s| == 7 && ParseMonth(request.query["month"].s) == Some((year, month))
      ensures outcome == Normalise(server(request))
    {
      MonthRoundTrip(year, month);
      request, outcome := CallApi("stat_by_month.php", map["month" := Str(MonthString(year, month))], timestamp, server);
    }

    /** `get_operator`. */
    method GetOperator(phone: Value, timestamp: int, server: Server) returns (request: Request, outcome: Outcome)
      ensures request.url == BaseUrl + "operator.php"
      ensures request.query == Signed(map["phone" := phone], login, apiKey, timestamp, digest)
      ensures outcome == Normalise(server(request))
    {
      request, outcome := CallApi("operator.php", map["phone" := phone], timestamp, server);
    }

    /** `get_incoming`: the date goes out as `YYYY-MM-DD`. */
    method GetIncoming(year: int, month: int, day: int, timestamp: int, server: Server)
      returns (request: Request, outcome: Outcome)
      requires ValidDate(year, month, day)
      ensures request.url == BaseUrl + "incoming.php"
      ensures request.query == Signed(map["date" := Str(DateString(year, month, day))], login, apiKey, timestamp, digest)
      ensures "date" in request.query && request.query["date"].Str?
      ensures |request.query["date"].s| == 10 && ParseDate(request.query["date"].s) == Some((year, month, day))
      ensures outcome == Normalise(server(request))
    {
      DateRoundTrip(year, month, day);
      request, outcome := CallApi("incoming.php", map["date" := Str(DateString(year, month, day))], timestamp, server);
    }
  }
}
