/**
 * The web search handler of api/search-google.ts. OPTIONS answers the static
 * interface description; any other call first draws an API key, then accepts
 * GET or POST, caps the call at 50 requests, fills each request's missing
 * search parameters with defaults, asks the SERP provider, drops five
 * position fields from every organic result and answers one result per
 * request, in order. Any failure fails the whole call with 500.
 *
 * The key pool and the provider are oracles: the key draw is a `Result`, the
 * provider maps the query parameters to its parsed reply or to the message of
 * whatever went wrong while fetching or reading it.
 */
module SerpSearch {

  import opened Common
  import opened Gateway

  const SuccessMessage := "SERP search results retrieved successfully."

  /** One search request; every field may be absent. */
  datatype SerpRequest = SerpRequest(
    searchTerm: Option<string>,
    location: Option<string>,
    hostLanguage: Option<string>,
    geolocation: Option<string>,
    device: Option<string>,
    numberOfResults: Option<int>,
    maxPage: Option<int>,
    includeHtml: Option<string>,
    output: Option<string>,
    includeAnswerBox: Option<string>,
    timePeriod: Option<string>)

  /** The query parameters sent to the provider. */
  datatype Params = Params(
    apiKey: string, q: Option<string>, location: string, hl: string, gl: string, device: string,
    num: string, maxPage: int, includeHtml: string, output: string, includeAnswerBox: string,
    timePeriod: string)

  /** JavaScript truthiness of an optional number: absent and `0` are falsy. */
  predicate TruthyNum(n: Option<int>) {
    n.Some? && n.value != 0
  }

  function DigitChar(d: nat): char
    requires d < 10
  {
    "0123456789"[d]
  }

  predicate IsDigit(c: char) {
    '0' <= c <= '9'
  }

  /** The decimal digits of a natural number, most significant first. */
  function NatToString(n: nat): (s: string)
    ensures |s| > 0 && forall i :: 0 <= i < |s| ==> IsDigit(s[i])
    ensures |s| > 1 ==> s[0] != '0'
    decreases n
  {
    if n < 10 then [DigitChar(n)] else NatToString(n / 10) + [DigitChar(n % 10)]
  }

  /** `Number.prototype.toString()` of an integer. */
  function IntToString(n: int): string {
    if n < 0 then "-" + NatToString(-n) else NatToString(n)
  }

  function DigitValue(c: char): nat
    requires IsDigit(c)
  {
    (c as int) - ('0' as int)
  }

  /** The value of a string of decimal digits. */
  function ParseDigits(s: string): nat
    requires forall i :: 0 <= i < |s| ==> IsDigit(s[i])
    decreases |s|
  {
    if s == [] then 0 else 10 * ParseDigits(s[..|s| - 1]) + DigitValue(s[|s| - 1])
  }

  /** The value of an integer's decimal rendering, as the provider reads it. */
  function ParseInt(s: string): Option<int> {
    if |s| > 0 && s[0] == '-' && forall i :: 1 <= i < |s| ==> IsDigit(s[i]) then Some(-(ParseDigits(s[1..]) as int))
    else if forall i :: 0 <= i < |s| ==> IsDigit(s[i]) then Some(ParseDigits(s) as int)
    else None
  }

  lemma {:induction false} ParseNatToString(n: nat)
    ensures ParseDigits(NatToString(n)) == n
    decreases n
  {
    if n >= 10 {
      var s := NatToString(n);
      ParseNatToString(n / 10);
      assert s[..|s| - 1] == NatToString(n / 10);
    }
  }

  /** Rendering an integer and reading it back gives the integer. */
  lemma IntToStringRoundTrip(n: int)
    ensures ParseInt(IntToString(n)) == Some(n)
  {
    if n < 0 {
      ParseNatToString(-n);
      assert IntToString(n)[1..] == NatToString(-n);
    } else {
      ParseNatToString(n);
    }
  }

  /** The `params` object built for one request. */
  function BuildParams(apiKey: string, req: SerpRequest): Params {
    Params(
      apiKey, req.searchTerm, OrElse(req.location, ""), OrElse(req.hostLanguage, "en"),
      OrElse(req.geolocation, "us"), OrElse(req.device, "desktop"),
      if TruthyNum(req.numberOfResults) then IntToString(req.numberOfResults.value) else "1",
      if TruthyNum(req.maxPage) then req.maxPage.value else 1,
      OrElse(req.includeHtml, "false"), OrElse(req.output, "json"),
      OrElse(req.includeAnswerBox, "false"), OrElse(req.timePeriod, ""))
  }

  /**
   * Every parameter is the request's own value when that is truthy and the
   * fixed default otherwise; the result count is sent as a decimal string
   * that reads back as the requested count, or as `1`.
   */
  lemma BuildParamsFacts(apiKey: string, req: SerpRequest)
    ensures var p := BuildParams(apiKey, req);
            && p.apiKey == apiKey && p.q == req.searchTerm
            && p.location == (if Truthy(req.location) then req.location.value else "")
            && p.hl == (if Truthy(req.hostLanguage) then req.hostLanguage.value else "en")
            && p.gl == (if Truthy(req.geolocation) then req.geolocation.value else "us")
            && p.device == (if Truthy(req.device) then req.device.value else "desktop")
            && p.maxPage == (if TruthyNum(req.maxPage) then req.maxPage.value else 1)
            && p.includeHtml == (if Truthy(req.includeHtml) then req.includeHtml.value else "false")
            && p.output == (if Truthy(req.output) then req.output.value else "json")
            && p.includeAnswerBox == (if Truthy(req.includeAnswerBox) then req.includeAnswerBox.value else "false")
            && p.timePeriod == (if Truthy(req.timePeriod) then req.timePeriod.value else "")
            && ParseInt(p.num) == Some(if TruthyNum(req.numberOfResults) then req.numberOfResults.value else 1)
  {
    if TruthyNum(req.numberOfResults) {
      IntToStringRoundTrip(req.numberOfResults.value);
    } else {
      IntToStringRoundTrip(1);
    }
  }

  /** A request that gives only a term is sent with every default. */
  lemma DefaultsOfBareRequest(apiKey: string, term: string)
    ensures BuildParams(apiKey, SerpRequest(Some(term), None, None, None, None, None, None, None, None, None, None))
            == Params(apiKey, Some(term), "", "en", "us", "desktop", "1", 1, "false", "json", "false", "")
  {
  }

  /** The provider's reply: its organic results and the first page's two URLs. */
  datatype SerpData = SerpData(organic: seq<Record>, engineUrl: string, jsonUrl: string)

  /** One element of the answer. */
  datatype SearchResult = SearchResult(searchQuery: Option<string>, organic: seq<Record>, searchUrl: string, metaDataUrl: string)

  /** The position fields dropped from every organic result. */
  const PositionFields: set<string> := {"prerender", "page", "position", "position_overall", "block_position"}

  /** The organic results with the position fields dropped, one for one and in order. */
  function FilterOrganic(results: seq<Record>): (r: seq<Record>)
    ensures |r| == |results|
    ensures forall i :: 0 <= i < |r| ==> r[i].Keys == results[i].Keys - PositionFields
    ensures forall i, k :: 0 <= i < |r| && k in r[i] ==> r[i][k] == results[i][k]
  {
    seq(|results|, i requires 0 <= i < |results| => Omit(results[i], PositionFields))
  }

  /** `${req.searchTerm}`: an absent term renders as `undefined`. */
  function TermText(term: Option<string>): string {
    match term
    case None => "undefined"
    case Some(s) => s
  }

  function FailedMessage(term: Option<string>, message: string): string {
    "Failed to retrieve results for query \"" + TermText(term) + "\": " + message
  }

  /** One request: build its parameters, ask the provider, filter its organic results. */
  function SearchOne(apiKey: string, req: SerpRequest, serp: Params -> Result<SerpData>): Result<SearchResult> {
    match serp(BuildParams(apiKey, req))
    case Err(e) => Err(FailedMessage(req.searchTerm, e))
    case Ok(d) => Ok(SearchResult(req.searchTerm, FilterOrganic(d.organic), d.engineUrl, d.jsonUrl))
  }

  /** The `Promise.all` over the requests, read in request order. */
  function SearchAll(apiKey: string, reqs: seq<SerpRequest>, serp: Params -> Result<SerpData>): Result<seq<SearchResult>> {
    Collect(seq(|reqs|, i requires 0 <= i < |reqs| => SearchOne(apiKey, reqs[i], serp)))
  }

  /**
   * The batch succeeds exactly when the provider answered every request, and
   * then holds, per request and in order, its term, its organic results
   * filtered and its page URLs; a failed batch carries the message of a
   * request the provider failed, naming that request's term.
   */
  lemma SearchAllFacts(apiKey: string, reqs: seq<SerpRequest>, serp: Params -> Result<SerpData>)
    ensures var r := SearchAll(apiKey, reqs, serp);
            r.Ok? <==> forall i :: 0 <= i < |reqs| ==> serp(BuildParams(apiKey, reqs[i])).Ok?
    ensures var r := SearchAll(apiKey, reqs, serp);
            r.Ok? ==> |r.value| == |reqs|
                      && forall i :: 0 <= i < |reqs| ==>
                           var d := serp(BuildParams(apiKey, reqs[i])).value;
                           r.value[i] == SearchResult(reqs[i].searchTerm, FilterOrganic(d.organic), d.engineUrl, d.jsonUrl)
    ensures var r := SearchAll(apiKey, reqs, serp);
            r.Err? ==> exists i :: 0 <= i < |reqs| && serp(BuildParams(apiKey, reqs[i])).Err?
                                   && r.error == FailedMessage(reqs[i].searchTerm, serp(BuildParams(apiKey, reqs[i])).error)
  {
    var rs := seq(|reqs|, i requires 0 <= i < |reqs| => SearchOne(apiKey, reqs[i], serp));
    CollectFacts(rs);
    assert forall i :: 0 <= i < |reqs| ==> (rs[i].Ok? <==> serp(BuildParams(apiKey, reqs[i])).Ok?);
  }

  /** The handler. */
  function Handle(verb: HttpMethod, query: SerpRequest, body: Payload<SerpRequest>, key: Result<string>,
                  serp: Params -> Result<SerpData>): Reply<SearchResult> {
    if verb == OPTIONS then Reply(200, InterfaceDescription)
    else
      match key
      case Err(e) => Failure(e)
      case Ok(apiKey) =>
        match Requests(verb, query, body)
        case None => Failure(InvalidMethodMessage)
        case Some(reqs) =>
          if TooMany(reqs) then Reply(400, Envelope(false, TooManyMessage, None))
          else
            match SearchAll(apiKey, reqs, serp)
            case Ok(results) => Reply(200, Envelope(true, SuccessMessage, Some(results)))
            case Err(e) => Failure(e)
  }

  /** OPTIONS is answered without drawing a key or searching. */
  lemma OptionsNeedsNoKey(query: SerpRequest, body: Payload<SerpRequest>, k1: Result<string>, k2: Result<string>,
                          s1: Params -> Result<SerpData>, s2: Params -> Result<SerpData>)
    ensures Handle(OPTIONS, query, body, k1, s1) == Handle(OPTIONS, query, body, k2, s2) == Reply(200, InterfaceDescription)
  {
  }

  /**
   * Every reply that is not OPTIONS is an envelope: 200 with the batch's
   * results, 400 without data for more than 50 requests, or 500 with `Error: `
   * and the message of the key draw, of the method check or of the batch.
   */
  lemma HandleFacts(verb: HttpMethod, query: SerpRequest, body: Payload<SerpRequest>, key: Result<string>,
                    serp: Params -> Result<SerpData>)
    requires verb != OPTIONS
    ensures var r := Handle(verb, query, body, key, serp);
            && r.body.Envelope?
            && (r.code == 200 || r.code == 400 || r.code == 500)
            && (r.code == 200 <==> r.body.status)
            && (key.Err? ==> r == Failure(key.error))
            && (key.Ok? && Requests(verb, query, body).None? ==> r == Failure(InvalidMethodMessage))
            && (r.code == 400 <==> key.Ok? && Requests(verb, query, body).Some? && TooMany(Requests(verb, query, body).value))
            && (r.code == 400 ==> r.body == Envelope(false, TooManyMessage, None))
    ensures var r := Handle(verb, query, body, key, serp);
            key.Ok? && Requests(verb, query, body).Some? && !TooMany(Requests(verb, query, body).value) ==>
              var batch := SearchAll(key.value, Requests(verb, query, body).value, serp);
              && (batch.Ok? ==> r == Reply(200, Envelope(true, SuccessMessage, Some(batch.value))))
              && (batch.Err? ==> r == Failure(batch.error))
  {
  }
}
