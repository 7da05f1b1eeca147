/**
 * The Google image search of functions/searchGoogle/googleImageSearch.ts.
 * `imageSearch` rewrites a request's size into a query-string suffix, in
 * place on the caller's options object, and asks the image-search library;
 * `googleImageSearch` accepts GET or POST, caps a call at 50 requests,
 * requires a search term on every request and answers one result list per
 * request, in order.
 *
 * The image-search library is an oracle from the options it is handed to its
 * reply; the image records it returns are kept opaque.
 */
module ImageSearch {

  import opened Common
  import opened Gateway

  const TermRequiredMessage := "Search term is required"
  const SuccessMessage := "Images retrieved successfully."

  /** The `sizeMap` of imageSearch. */
  function SizeCode(size: string): (r: Option<string>)
    ensures r.Some? <==> size in {"small", "medium", "large", "icon"}
  {
    match size
    case "small" => Some("isz:i,s")
    case "medium" => Some("isz:m")
    case "large" => Some("isz:l")
    case "icon" => Some("isz:i")
    case _ => None
  }

  /** The size has an entry in the size map (an absent or empty size has none). */
  predicate Mapped(size: Option<string>) {
    size.Some? && SizeCode(size.value).Some?
  }

  /**
   * The `queryStringAddition` imageSearch leaves behind: for a mapped size the
   * old addition (or `''`) followed by `&` and the size's code; otherwise the
   * old addition untouched.
   */
  function WithSize(addition: Option<string>, size: Option<string>): (r: Option<string>)
    ensures Mapped(size) ==> r == Some(addition.GetOr("") + "&" + SizeCode(size.value).value)
    ensures !Mapped(size) ==> r == addition
  {
    if Mapped(size) then Some(OrElse(addition, "") + "&" + SizeCode(size.value).value) else addition
  }

  /** The fields of an `ImageSearchOptions` object at one moment. */
  datatype Query = Query(searchTerm: Option<string>, size: Option<string>, queryStringAddition: Option<string>)

  /** The options as imageSearch hands them to the library. */
  function Sized(q: Query): (r: Query)
    ensures r.searchTerm == q.searchTerm && r.size == q.size
    ensures r.queryStringAddition == WithSize(q.queryStringAddition, q.size)
  {
    q.(queryStringAddition := WithSize(q.queryStringAddition, q.size))
  }

  /**
   * The rewrite is not idempotent: options searched twice carry the size's
   * code twice.
   */
  lemma SizedTwiceAppendsTwice(q: Query)
    requires Mapped(q.size)
    ensures var code := SizeCode(q.size.value).value;
            Sized(Sized(q)).queryStringAddition == Some(q.queryStringAddition.GetOr("") + "&" + code + "&" + code)
  {
  }

  /** One request's settled promise: a missing term throws, otherwise the library's reply. */
  function Outcome(q: Query, gis: Query -> Result<seq<Record>>): (r: Result<seq<Record>>)
    ensures !Truthy(q.searchTerm) ==> r == Err(TermRequiredMessage)
    ensures Truthy(q.searchTerm) ==> r == gis(Sized(q))
  {
    if !Truthy(q.searchTerm) then Err(TermRequiredMessage) else gis(Sized(q))
  }

  function Outcomes(qs: seq<Query>, gis: Query -> Result<seq<Record>>): seq<Result<seq<Record>>> {
    seq(|qs|, i requires 0 <= i < |qs| => Outcome(qs[i], gis))
  }

  /** Some request lacks a search term. */
  predicate SomeTermMissing(qs: seq<Query>) {
    exists i :: 0 <= i < |qs| && !Truthy(qs[i].searchTerm)
  }

  /**
   * The answer to an accepted batch. A missing term rejects its promise before
   * any search can answer, so it decides the call; otherwise the first failed
   * search in request order does; otherwise every result list, in order.
   */
  function BatchBody(qs: seq<Query>, gis: Query -> Result<seq<Record>>): Body<seq<Record>> {
    Answer(SomeTermMissing(qs), Collect(Outcomes(qs, gis)))
  }

  /** The envelope for a batch, given whether a term was missing and the searches collected. */
  function Answer(missing: bool, collected: Result<seq<seq<Record>>>): Body<seq<Record>> {
    if missing then Envelope(false, "Error: " + TermRequiredMessage, None)
    else
      match collected
      case Ok(lists) => Envelope(true, SuccessMessage, Some(lists))
      case Err(e) => Envelope(false, "Error: " + e, None)
  }

  /**
   * A batch succeeds exactly when every request has a term and every search
   * succeeded; its data is then the library's reply to each request, sized, in
   * request order. A failed batch names the missing term, or the error of one
   * of the searches.
   */
  lemma BatchBodyFacts(qs: seq<Query>, gis: Query -> Result<seq<Record>>)
    ensures BatchBody(qs, gis).Envelope?
    ensures var b := BatchBody(qs, gis);
            b.status <==> !SomeTermMissing(qs) && forall i :: 0 <= i < |qs| ==> gis(Sized(qs[i])).Ok?
    ensures var b := BatchBody(qs, gis);
            b.status ==> b.message == SuccessMessage && b.data.Some? && |b.data.value| == |qs|
                         && forall i :: 0 <= i < |qs| ==> b.data.value[i] == gis(Sized(qs[i])).value
    ensures var b := BatchBody(qs, gis);
            !b.status ==> b.data.None?
                          && (b.message == "Error: " + TermRequiredMessage
                              || exists i :: 0 <= i < |qs| && gis(Sized(qs[i])) == Err(b.message[7..]) && b.message[..7] == "Error: ")
    ensures SomeTermMissing(qs) ==> BatchBody(qs, gis) == Envelope(false, "Error: " + TermRequiredMessage, None)
  {
    var rs := Outcomes(qs, gis);
    CollectFacts(rs);
    if !SomeTermMissing(qs) {
      assert forall i :: 0 <= i < |qs| ==> rs[i] == gis(Sized(qs[i]));
      if Collect(rs).Err? {
        var i :| 0 <= i < |rs| && rs[i] == Err(Collect(rs).error) && forall j :: 0 <= j < i ==> rs[j].Ok?;
        assert ("Error: " + Collect(rs).error)[7..] == Collect(rs).error;
      }
    }
  }

  /** The queries the library receives: the requests that have a term, sized, in order. */
  function Searches(qs: seq<Query>): seq<Query>
    decreases |qs|
  {
    if qs == [] then []
    else Searches(qs[..|qs| - 1]) + (if Truthy(qs[|qs| - 1].searchTerm) then [Sized(qs[|qs| - 1])] else [])
  }

  /** Every request that has a term is searched, even when another request lacks one. */
  lemma {:induction false} SearchesFacts(qs: seq<Query>)
    ensures |Searches(qs)| <= |qs|
    ensures (forall i :: 0 <= i < |qs| ==> Truthy(qs[i].searchTerm)) ==> Searches(qs) == seq(|qs|, i requires 0 <= i < |qs| => Sized(qs[i]))
    ensures forall i :: 0 <= i < |qs| && Truthy(qs[i].searchTerm) ==> Sized(qs[i]) in Searches(qs)
    ensures forall q :: q in Searches(qs) ==> exists i :: 0 <= i < |qs| && q == Sized(qs[i]) && Truthy(qs[i].searchTerm)
    decreases |qs|
  {
    if qs != [] {
      var front := qs[..|qs| - 1];
      SearchesFacts(front);
      assert forall i :: 0 <= i < |front| ==> front[i] == qs[i];
    }
  }

  /** How the batch's records grow by one request. */
  lemma PrefixStep(qs: seq<Query>, i: nat, gis: Query -> Result<seq<Record>>)
    requires i < |qs|
    ensures SomeTermMissing(qs[..i + 1]) <==> SomeTermMissing(qs[..i]) || !Truthy(qs[i].searchTerm)
    ensures Collect(Outcomes(qs[..i + 1], gis)) == CollectStep(Collect(Outcomes(qs[..i], gis)), Outcome(qs[i], gis))
    ensures Searches(qs[..i + 1]) == Searches(qs[..i]) + (if Truthy(qs[i].searchTerm) then [Sized(qs[i])] else [])
  {
    assert qs[..i + 1][..i] == qs[..i];
    assert Outcomes(qs[..i + 1], gis)[..i] == Outcomes(qs[..i], gis);
    if !SomeTermMissing(qs[..i]) && Truthy(qs[i].searchTerm) {
      var grown := qs[..i + 1];
      forall j | 0 <= j < |grown| ensures Truthy(grown[j].searchTerm) {
        if j < i {
          assert grown[j] == qs[..i][j];
        }
      }
    }
  }

  /** The state an options object is left in: searched ones carry the size suffix. */
  function After(q: Query): Query {
    if Truthy(q.searchTerm) then Sized(q) else q
  }

  /** A request's options, which imageSearch mutates in place. */
  class ImageSearchOptions {
    var searchTerm: Option<string>
    var size: Option<string>
    var queryStringAddition: Option<string>

    constructor (searchTerm: Option<string>, size: Option<string>, queryStringAddition: Option<string>)
      ensures this.searchTerm == searchTerm && this.size == size && this.queryStringAddition == queryStringAddition
    {
      this.searchTerm := searchTerm;
      this.size := size;
      this.queryStringAddition := queryStringAddition;
    }

    function Fields(): Query
      reads this
    {
      Query(searchTerm, size, queryStringAddition)
    }
  }

  /** imageSearch: rewrite the size into the options object, then ask the library. */
  method RunImageSearch(options: ImageSearchOptions, gis: Query -> Result<seq<Record>>) returns (r: Result<seq<Record>>)
    modifies options
    ensures options.Fields() == Sized(old(options.Fields()))
    ensures r == gis(options.Fields())
  {
    if options.size.Some? && options.size.value != "" {
      var code := SizeCode(options.size.value);
      if code.Some? {
        options.queryStringAddition := Some(OrElse(options.queryStringAddition, "") + "&" + code.value);
      }
    }
    r := gis(Query(options.searchTerm, options.size, options.queryStringAddition));
  }

  /** One request of the batch: a missing term throws, otherwise imageSearch; `now` is what the library received. */
  method Settle(item: ImageSearchOptions, gis: Query -> Result<seq<Record>>) returns (outcome: Result<seq<Record>>, now: seq<Query>)
    modifies item
    ensures outcome == Outcome(old(item.Fields()), gis)
    ensures now == if Truthy(old(item.searchTerm)) then [Sized(old(item.Fields()))] else []
    ensures item.Fields() == After(old(item.Fields()))
  {
    if item.searchTerm.None? || item.searchTerm.value == "" {
      return Err(TermRequiredMessage), [];
    }
    now := [Sized(item.Fields())];
    outcome := RunImageSearch(item, gis);
  }

  /** The objects a call's requests are. */
  function Receivers(verb: HttpMethod, query: ImageSearchOptions, body: Payload<ImageSearchOptions>): set<ImageSearchOptions> {
    match Requests(verb, query, body)
    case None => {}
    case Some(reqs) => set o | o in reqs
  }

  /** No options object appears twice among the requests (a parsed JSON body never shares objects). */
  predicate Distinct(reqs: seq<ImageSearchOptions>) {
    forall i, j :: 0 <= i < j < |reqs| ==> reqs[i] != reqs[j]
  }

  /** The fields of each request, in order. */
  function FieldsOf(reqs: seq<ImageSearchOptions>): (qs: seq<Query>)
    reads set o | o in reqs
    ensures |qs| == |reqs| && forall i :: 0 <= i < |reqs| ==> qs[i] == reqs[i].Fields()
    decreases |reqs|
  {
    if reqs == [] then [] else FieldsOf(reqs[..|reqs| - 1]) + [reqs[|reqs| - 1].Fields()]
  }

  /** The accepted batch: size and search every request that has a term, in order. */
  method SearchAll(reqs: seq<ImageSearchOptions>, gis: Query -> Result<seq<Record>>)
      returns (resp: Body<seq<Record>>, searched: seq<Query>)
    requires Distinct(reqs)
    modifies set o | o in reqs
    ensures var qs := old(FieldsOf(reqs));
            && resp == BatchBody(qs, gis) && searched == Searches(qs)
            && forall i :: 0 <= i < |reqs| ==> reqs[i].Fields() == After(qs[i])
  {
    ghost var qs := FieldsOf(reqs);
    var missing := false;
    var collected: Result<seq<seq<Record>>> := Ok([]);
    searched := [];
    var i := 0;
    while i < |reqs|
      invariant 0 <= i <= |reqs|
      invariant missing <==> SomeTermMissing(qs[..i])
      invariant collected == Collect(Outcomes(qs[..i], gis))
      invariant searched == Searches(qs[..i])
      invariant forall j :: 0 <= j < i ==> reqs[j].Fields() == After(qs[j])
      invariant forall j :: i <= j < |reqs| ==> reqs[j].Fields() == qs[j]
    {
      PrefixStep(qs, i, gis);
      missing := missing || !Truthy(reqs[i].searchTerm);
      var outcome, now := Settle(reqs[i], gis);
      searched := searched + now;
      collected := CollectStep(collected, outcome);
      i := i + 1;
    }
    assert qs[..i] == qs;
    resp := Answer(missing, collected);
  }

  /**
   * googleImageSearch. A method other than GET or POST, or more than 50
   * requests, is refused before anything is searched or changed. Otherwise
   * every request with a term is sized in place and searched, in order, and
   * the answer is `BatchBody` of the requests as they were; `searched` lists
   * the options the library received.
   */
  method GoogleImageSearch(verb: HttpMethod, query: ImageSearchOptions, body: Payload<ImageSearchOptions>,
                           gis: Query -> Result<seq<Record>>)
      returns (resp: Body<seq<Record>>, searched: seq<Query>)
    requires Requests(verb, query, body).Some? ==> Distinct(Requests(verb, query, body).value)
    modifies Receivers(verb, query, body)
    ensures match Requests(verb, query, body)
            case None => resp == Envelope(false, InvalidMethodMessage, None) && searched == []
            case Some(reqs) =>
              if TooMany(reqs) then
                resp == Envelope(false, TooManyMessage, Some([])) && searched == [] && unchanged(set o | o in reqs)
              else
                var qs := old(FieldsOf(reqs));
                && resp == BatchBody(qs, gis) && searched == Searches(qs)
                && forall i :: 0 <= i < |reqs| ==> reqs[i].Fields() == After(qs[i])
  {
    var requests := Requests(verb, query, body);
    if requests.None? {
      return Envelope(false, InvalidMethodMessage, None), [];
    }
    var reqs := requests.value;
    if |reqs| > MaxBatch {
      return Envelope(false, TooManyMessage, Some([])), [];
    }
    resp, searched := SearchAll(reqs, gis);
  }
}
