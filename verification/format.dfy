/** The request record handed to a formatter and the default formatter `formatDefault`.
    Axios' request, response and error objects are foreign; they are modelled as records
    carrying only the fields the formatter reads, each of which may be absent. */
module Format {
  import opened Wrappers
  import opened Strings

  /** The parts of an `AxiosRequestConfig` the formatter reads. */
  datatype Config = Config(httpMethod: Option<string>, url: Option<string>)

  /** The parts of an `AxiosResponse` the formatter reads. */
  datatype Response = Response(status: Option<int>, statusText: Option<string>)

  /** An `AxiosError`: its message and the HTTP response embedded in it, if there was one. */
  datatype HttpError = HttpError(message: string, response: Option<Response>)

  /** `RequestData`: one call's configuration, outcome and timestamps (in milliseconds). */
  datatype RequestData = RequestData(
    config: Config,
    response: Option<Response>,
    error: Option<HttpError>,
    startTime: int,
    endTime: int)

  /** A value passed to the logger: a string, `undefined`, or the `{config, response, error}` bag. */
  datatype Value =
    | Text(s: string)
    | Undefined
    | Bag(config: Config, response: Option<Response>, error: Option<HttpError>)

  /** `${x}` for an optional number. */
  function ShowInt(x: Option<int>): string {
    match x
    case Some(n) => IntToDecimal(n)
    case None => "undefined"
  }

  /** `${x}` for an optional string. */
  function ShowText(x: Option<string>): string {
    match x
    case Some(s) => s
    case None => "undefined"
  }

  /** `response || error?.response`: the response the status is read from. */
  function StatusSource(request: RequestData): (r: Option<Response>)
    ensures request.response.Some? ==> r == request.response
    ensures request.response.None? && request.error.Some? ==> r == request.error.value.response
    ensures request.response.None? && request.error.None? ==> r.None?
  {
    if request.response.Some? then request.response
    else if request.error.Some? then request.error.value.response
    else None
  }

  /** The default formatter: method, status, elapsed time, url and the bag, in that order. */
  function FormatDefault(request: RequestData): (r: seq<Value>)
    ensures |r| == 5
    ensures r[0].Text? && r[1].Text? && r[2].Text?
    ensures r[4] == Bag(request.config, request.response, request.error)
  {
    var verb := request.config.httpMethod.GetOr("");
    var source := StatusSource(request);
    var status := if source.Some? then source.value.status else None;
    var statusText := if source.Some? then source.value.statusText else None;
    var ms := request.endTime - request.startTime;
    var url := if request.config.url.Some? then Text(request.config.url.value) else Undefined;
    [ Text(UpperCase(verb)),
      Text(ShowInt(status) + "/(" + ShowText(statusText) + ")"),
      Text(IntToDecimal(ms) + "ms"),
      url,
      Bag(request.config, request.response, request.error) ]
  }

  /** The first value is the method upper-cased letter by letter, and it is empty exactly
      when the method is absent or empty. */
  lemma FormatDefaultMethod(request: RequestData)
    ensures var m := request.config.httpMethod.GetOr("");
            var u := FormatDefault(request)[0].s;
            && |u| == |m|
            && (forall i :: 0 <= i < |m| ==> u[i] == UpperChar(m[i]))
            && (forall i :: 0 <= i < |u| ==> !IsLower(u[i]))
            && (u == "" <==> request.config.httpMethod.None? || request.config.httpMethod.value == "")
  {
    var m := request.config.httpMethod.GetOr("");
    forall i | 0 <= i < |m| ensures UpperCase(m)[i] == UpperChar(m[i]) {
      UpperCaseAt(m, i);
    }
    UpperCaseIdempotent(m);
  }

  /** The status value: from the response when there is one, else from the error's
      embedded response, else `undefined/(undefined)`; a response wins over the error's. */
  lemma FormatDefaultStatus(request: RequestData)
    ensures request.response.Some? ==>
      FormatDefault(request)[1].s ==
        ShowInt(request.response.value.status) + "/(" + ShowText(request.response.value.statusText) + ")"
    ensures request.response.None? && request.error.Some? && request.error.value.response.Some? ==>
      FormatDefault(request)[1].s ==
        ShowInt(request.error.value.response.value.status) + "/("
        + ShowText(request.error.value.response.value.statusText) + ")"
    ensures request.response.None? && (request.error.None? || request.error.value.response.None?) ==>
      FormatDefault(request)[1].s == "undefined/(undefined)"
  {
  }

  /** The elapsed value is `<endTime - startTime>ms`, read back exactly, and has no sign
      when the end is not before the start. */
  lemma FormatDefaultElapsed(request: RequestData)
    ensures var e := FormatDefault(request)[2].s;
            && |e| > 2 && e[|e| - 2..] == "ms"
            && ParseInt(e[..|e| - 2]) == Some(request.endTime - request.startTime)
            && (request.endTime >= request.startTime ==> AllDigits(e[..|e| - 2]))
  {
    var d := IntToDecimal(request.endTime - request.startTime);
    IntToDecimalRoundTrip(request.endTime - request.startTime);
    var e := d + "ms";
    assert e[..|e| - 2] == d;
    assert e[|e| - 2..] == "ms";
  }

  /** The fourth value is the url, or `undefined` when the config has none. */
  lemma FormatDefaultUrl(request: RequestData)
    ensures request.config.url.Some? ==> FormatDefault(request)[3] == Text(request.config.url.value)
    ensures request.config.url.None? ==> FormatDefault(request)[3] == Undefined
  {
  }

  /** A GET of "/x" answered 200 OK after 5 ms starts with ["GET", "200/(OK)", "5ms", "/x"]. */
  lemma FormatDefaultExample()
    ensures var r := FormatDefault(RequestData(Config(Some("get"), Some("/x")),
                                               Some(Response(Some(200), Some("OK"))), None, 1000, 1005));
            r[..4] == [Text("GET"), Text("200/(OK)"), Text("5ms"), Text("/x")]
  {
    var m := "get";
    assert UpperCase(m) == "GET" by {
      assert UpperCase(m[2..]) == "T";
      assert UpperCase(m[1..]) == "ET";
    }
    assert NatToDecimal(200) == "200" by {
      assert NatToDecimal(2) == "2";
      assert NatToDecimal(20) == "2" + [DigitChar(0)];
    }
    assert NatToDecimal(5) == "5";
    assert IntToDecimal(200) + "/(" + "OK" + ")" == "200/(OK)";
    assert IntToDecimal(1005 - 1000) + "ms" == "5ms";
  }

  /** A call that failed without any HTTP response (connection refused) still formats,
      with the placeholder status. */
  lemma FormatDefaultNetworkFailure(config: Config, message: string, start: int, end: int)
    ensures FormatDefault(RequestData(config, None, Some(HttpError(message, None)), start, end))[1]
            == Text("undefined/(undefined)")
  {
  }
}
