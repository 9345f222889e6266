/** What the exchange service decides around its two upstream calls
    (src/bff/exchangeService.js): the BFF rates call, whose failures
    propagate with a message, and the external global market statistics
    call, whose failures are contained. The awaited HTTP request is an
    input: the settled outcome of that request. */
module ExchangeService {

  import opened Js

  /** The `response` an HTTP client attaches to an error when the server
      answered: its status and its parsed body. */
  datatype ErrorResponse = ErrorResponse(status: int, data: Option<Json>)

  /** A rejected request: the client's error `code` (such as "ECONNABORTED"
      on a timeout), the server's answer if there was one, and the
      transport error's own `message`. */
  datatype HttpError = HttpError(code: Option<string>, response: Option<ErrorResponse>, message: Option<string>)

  /** A fulfilled request; `data` is the parsed body. */
  datatype Response = Response(data: Option<Json>)

  /** How the awaited request settled. */
  datatype Call = Answered(response: Response) | Rejected(error: HttpError)

  /** How a service method settles: it returns a value, or throws an `Error`
      built from `message` (the value passed to the `Error` constructor). */
  datatype Outcome = Returned(value: Json) | Thrown(message: Json)

  const DefaultRatesError: string := "Błąd podczas pobierania kursów walut"

  /** The value returned by the market statistics call when it has nothing
      to report: an object whose `data` is an empty object. */
  const EmptyStats: Json := Obj(map["data" := Obj(map[])])

  // ----- Rates -----

  /** `error.response?.data?.message`: defined exactly when the server
      answered with an object body that has a `message` field. */
  function BodyMessage(e: HttpError): (r: Option<Json>)
    ensures r.Some? <==> e.response.Some? && e.response.value.data.Some?
                         && e.response.value.data.value.Obj? && "message" in e.response.value.data.value.fields
    ensures r.Some? ==> r.value == e.response.value.data.value.fields["message"]
  {
    match e.response
    case None => None
    case Some(resp) => Get(resp.data, "message")
  }

  /** The transport error's `message`, undefined when absent. */
  function TransportMessage(e: HttpError): (r: Option<Json>)
    ensures r.Some? <==> e.message.Some?
    ensures r.Some? ==> r.value == Str(e.message.value)
  {
    match e.message
    case None => None
    case Some(m) => Some(Str(m))
  }

  /** The message of the error the rates call throws: the upstream body's
      message if truthy, else the transport message if non-empty, else the
      default text. It is always truthy, and always one of the three. */
  function RatesErrorMessage(e: HttpError): (r: Json)
    ensures Truthy(Some(r))
    ensures Truthy(BodyMessage(e)) ==> r == BodyMessage(e).value
    ensures !Truthy(BodyMessage(e)) && e.message.Some? && e.message.value != "" ==> r == Str(e.message.value)
    ensures !Truthy(BodyMessage(e)) && (e.message.None? || e.message.value == "") ==> r == Str(DefaultRatesError)
  {
    Or(BodyMessage(e), Or(TransportMessage(e), Str(DefaultRatesError)))
  }

  /** The rates call: the BFF payload unchanged when truthy, otherwise an
      empty list; a rejected request always ends in a thrown error. */
  function GetExchangeRates(call: Call): (r: Outcome)
    ensures r.Returned? <==> call.Answered?
    ensures call.Answered? && Truthy(call.response.data) ==> r.value == call.response.data.value
    ensures call.Answered? && !Truthy(call.response.data) ==> r.value == Arr([])
    ensures r.Returned? ==> Truthy(Some(r.value))
    ensures call.Rejected? ==> r.message == RatesErrorMessage(call.error) && Truthy(Some(r.message))
  {
    match call
    case Answered(response) => Returned(Or(response.data, Arr([])))
    case Rejected(error) => Thrown(RatesErrorMessage(error))
  }

  /** A payload the rates call returned comes back unchanged when it is
      served again: the call never transforms a value it has already
      accepted. */
  lemma RatesPassThroughIdempotent(call: Call)
    requires call.Answered?
    ensures GetExchangeRates(Answered(Response(Some(GetExchangeRates(call).value))))
         == GetExchangeRates(call)
  {
  }

  /** Precedence of the rates error message, stated over the error's raw
      fields: a non-empty string in the upstream body wins over the
      transport message, which wins over the default text. */
  lemma RatesMessagePrecedence(status: int, body: string, transport: string, code: Option<string>)
    ensures var e := HttpError(code, Some(ErrorResponse(status, Some(Obj(map["message" := Str(body)])))), Some(transport));
      && (body != "" ==> RatesErrorMessage(e) == Str(body))
      && (body == "" && transport != "" ==> RatesErrorMessage(e) == Str(transport))
      && (body == "" && transport == "" ==> RatesErrorMessage(e) == Str(DefaultRatesError))
  {
  }

  // ----- Market statistics -----

  /** The shape check of the market statistics call: the body is truthy
      and so is its `data` field. It passes exactly for an object body
      holding a truthy `data` field. */
  predicate HasStatsShape(data: Option<Json>)
    ensures HasStatsShape(data) <==> data.Some? && data.value.Obj? && "data" in data.value.fields
                                     && Truthy(Some(data.value.fields["data"]))
  {
    Truthy(data) && Truthy(Get(data, "data"))
  }

  /** The market statistics call: the body unchanged when it has the
      expected shape; otherwise, and on every rejected request, the empty
      statistics. It never throws, and what it returns always has a truthy
      `data` field. */
  function GetMarketStats(call: Call): (r: Outcome)
    ensures r.Returned?
    ensures HasStatsShape(Some(r.value))
    ensures call.Rejected? ==> r.value == EmptyStats
    ensures call.Answered? && HasStatsShape(call.response.data) ==> r.value == call.response.data.value
    ensures call.Answered? && !HasStatsShape(call.response.data) ==> r.value == EmptyStats
  {
    match call
    case Answered(response) =>
      if !Truthy(response.data) || !Truthy(Get(response.data, "data")) then Returned(EmptyStats)
      else Returned(response.data.value)
    case Rejected(_) => Returned(EmptyStats)
  }

  /** The cause of a failure (a timeout, no server answer, HTTP 429 or
      anything else) reaches only the log: any two rejected requests give
      the same result, whatever their code, response and message. */
  lemma MarketStatsIgnoresCause(e1: HttpError, e2: HttpError)
    ensures GetMarketStats(Rejected(e1)) == GetMarketStats(Rejected(e2)) == Returned(EmptyStats)
  {
  }

  /** Whatever the market statistics call returned passes its own shape
      check again unchanged. */
  lemma MarketStatsIdempotent(call: Call)
    ensures var once := GetMarketStats(call).value;
      GetMarketStats(Answered(Response(Some(once)))) == Returned(once)
  {
  }

  /** Each way the body can miss the expected shape yields the empty
      statistics: no body, a body without `data`, and a body whose `data`
      is null. */
  lemma MarketStatsBadShapes(fields: map<string, Json>)
    requires "data" !in fields
    ensures GetMarketStats(Answered(Response(None))).value == EmptyStats
    ensures GetMarketStats(Answered(Response(Some(Obj(fields))))).value == EmptyStats
    ensures GetMarketStats(Answered(Response(Some(Obj(fields["data" := Null]))))).value == EmptyStats
  {
  }
}
