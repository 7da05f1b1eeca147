/**
 * The IP geolocation cache of api/ip.ts: a read-through cache over the
 * `ipAddressLookupCache` collection. A hit returns the stored document; a
 * miss fetches the provider's record once, adds two description strings,
 * upserts it keyed by the record's own `ip` field, and returns it; both paths
 * hand back the record without `_id` and `timezone`. The batch handler caps a
 * call at 50 requests and answers one element per request, in order.
 *
 * The provider is an oracle from the requested ip string to its reply; the
 * collection is a map from the value of a document's `ip` field to the
 * document; a `Promise.all` over the requests is an ordered sequential map.
 */
module IpLookup {

  import opened Common
  import opened Gateway

  const RequiredMessage := "IP address is required"
  const SuccessMessage := "IP information retrieved successfully."

  /** A document of the collection: the `_id` the database assigned, and its other fields. */
  datatype Doc = Doc(id: nat, fields: Record)

  /** The collection, indexed by the value of each document's `ip` field, and the next `_id`. */
  datatype Store = Store(docs: map<Value, Doc>, nextId: nat)

  /** Every document sits under the value of its own `ip` field. */
  ghost predicate Indexed(docs: map<Value, Doc>) {
    forall k | k in docs :: "ip" in docs[k].fields && docs[k].fields["ip"] == k
  }

  /** The template of createDescription. */
  const DescriptionTemplate: seq<Piece> := [
    Text("IP "), Hole("ip"), Text(" is located in "), Hole("city"), Text(", "),
    Hole("region"), Text(", "), Hole("country_name"), Text(".")]

  /** The template of createDetailedDescription. */
  const DetailedDescriptionTemplate: seq<Piece> := [
    Text("IP "), Hole("ip"), Text(" belongs to the network "), Hole("network"),
    Text(". It is an "), Hole("version"), Text(" address located in "), Hole("city"),
    Text(", "), Hole("region"), Text(" ("), Hole("region_code"), Text("), "),
    Hole("country_name"), Text(" ("), Hole("country_code_iso3"),
    Text("). The location has the postal code "), Hole("postal"),
    Text(" and is situated at latitude "), Hole("latitude"), Text(" and longitude "),
    Hole("longitude"), Text(". The currency used is "), Hole("currency"), Text(" ("),
    Hole("currency_name"), Text("), and the calling code is "), Hole("country_calling_code"),
    Text(". The ISP is "), Hole("org"), Text(" with ASN "), Hole("asn"), Text(".")]

  /** createDescription: `IP <ip> is located in <city>, <region>, <country_name>.` */
  function CreateDescription(info: Record): string {
    Fill(DescriptionTemplate, info)
  }

  /** createDetailedDescription: the fixed sixteen-field template. */
  function CreateDetailedDescription(info: Record): string {
    Fill(DetailedDescriptionTemplate, info)
  }

  lemma DetailedTemplateHasNoDescriptionHole()
    ensures NoHoleFor(DetailedDescriptionTemplate, "description")
  {
  }

  /**
   * The provider's record with `description` set, then `detailedDescription`
   * set: both are computed from the provider's own fields (the detailed
   * template has no `description` hole), everything else is kept.
   */
  function Describe(raw: Record): (r: Record)
    ensures r.Keys == raw.Keys + {"description", "detailedDescription"}
    ensures "description" in r && r["description"] == Str(CreateDescription(raw))
    ensures "detailedDescription" in r && r["detailedDescription"] == Str(CreateDetailedDescription(raw))
    ensures forall k :: k in raw && k != "description" && k != "detailedDescription" ==> k in r && r[k] == raw[k]
  {
    var withDescription := raw["description" := Str(CreateDescription(raw))];
    DetailedIgnoresDescription(raw, Str(CreateDescription(raw)));
    withDescription["detailedDescription" := Str(CreateDetailedDescription(withDescription))]
  }

  /** The detailed description does not read the `description` field. */
  lemma DetailedIgnoresDescription(raw: Record, v: Value)
    ensures CreateDetailedDescription(raw["description" := v]) == CreateDetailedDescription(raw)
  {
    DetailedTemplateHasNoDescriptionHole();
    FillIgnoresOtherFields(DetailedDescriptionTemplate, raw, "description", v);
  }

  /** What a caller is handed: the record without `_id` and `timezone`. */
  function Strip(info: Record): (r: Record)
    ensures "_id" !in r && "timezone" !in r
    ensures r.Keys == info.Keys - {"_id", "timezone"}
    ensures forall k :: k in r ==> r[k] == info[k]
  {
    Omit(info, {"_id", "timezone"})
  }

  /** The upsert filter `{ ip: ipInfo.ip }`: a missing `ip` is stored and matched as null. */
  function KeyOf(info: Record): Value {
    if "ip" in info then info["ip"] else Null
  }

  /** findInDB: the fields (without `_id`) of the document whose `ip` is the requested string. */
  function FindInDB(st: Store, ip: string): (r: Option<Record>)
    ensures r.Some? <==> Str(ip) in st.docs
    ensures r.Some? ==> r.value == st.docs[Str(ip)].fields
    ensures Indexed(st.docs) ==> (r.Some? <==> exists k :: k in st.docs && st.docs[k].fields["ip"] == Str(ip))
  {
    if Str(ip) in st.docs then Some(st.docs[Str(ip)].fields) else None
  }

  /**
   * storeInDB: `updateOne({ip: info.ip}, {$set: info}, {upsert: true})`. A
   * document with that `ip` gets every field of `info` set and keeps its other
   * fields and its `_id`; otherwise a new document with a fresh `_id` is
   * inserted. No other document changes.
   */
  function Upsert(st: Store, info: Record): Store
  {
    var key := KeyOf(info);
    if key in st.docs then
      Store(st.docs[key := Doc(st.docs[key].id, st.docs[key].fields + info)], st.nextId)
    else
      Store(st.docs[key := Doc(st.nextId, map["ip" := key] + info)], st.nextId + 1)
  }

  /**
   * What the upsert promises: the document under the key holds every field of
   * `info`, a matched document keeps its `_id` and its other fields, a new one
   * gets the next `_id` and the key as its `ip`, no other document changes,
   * and the collection stays indexed by `ip`.
   */
  lemma UpsertFacts(st: Store, info: Record)
    ensures var key, r := KeyOf(info), Upsert(st, info);
            && r.docs.Keys == st.docs.Keys + {key}
            && (forall f :: f in info ==> f in r.docs[key].fields && r.docs[key].fields[f] == info[f])
            && (key in st.docs ==> r.docs[key].id == st.docs[key].id && r.nextId == st.nextId
                                   && forall f :: f in st.docs[key].fields && f !in info
                                                  ==> f in r.docs[key].fields
                                                      && r.docs[key].fields[f] == st.docs[key].fields[f])
            && (key !in st.docs ==> r.docs[key] == Doc(st.nextId, map["ip" := key] + info)
                                    && r.nextId == st.nextId + 1)
            && (forall k :: k in st.docs && k != key ==> r.docs[k] == st.docs[k])
    ensures Indexed(st.docs) ==> Indexed(Upsert(st, info).docs)
  {
  }

  /** One lookup: its outcome, the collection afterwards, and whether the provider was called. */
  datatype Lookup = Lookup(result: Result<Record>, store: Store, fetched: bool)

  /** processIp, on the collection `st`. */
  function Process(st: Store, ip: string, fetch: string -> Result<Record>): Lookup {
    match FindInDB(st, ip)
    case Some(found) => Lookup(Ok(Strip(found)), st, false)
    case None =>
      match fetch(ip)
      case Err(e) => Lookup(Err(e), st, true)
      case Ok(raw) =>
        var info := Describe(raw);
        Lookup(Ok(Strip(info)), Upsert(st, info), true)
  }

  /** IPAddressLookUp: an empty ip fails before the cache or the provider is touched. */
  function LookUp(st: Store, ip: string, fetch: string -> Result<Record>): (l: Lookup)
    ensures ip == "" ==> l == Lookup(Err(RequiredMessage), st, false)
    ensures ip != "" ==> l == Process(st, ip, fetch)
  {
    if ip == "" then Lookup(Err(RequiredMessage), st, false) else Process(st, ip, fetch)
  }

  /** A hit calls nobody, writes nothing and returns the stored fields minus `_id` and `timezone`. */
  lemma HitIsReadOnly(st: Store, ip: string, fetch: string -> Result<Record>)
    requires Str(ip) in st.docs
    ensures Process(st, ip, fetch) == Lookup(Ok(Strip(st.docs[Str(ip)].fields)), st, false)
  {
  }

  /**
   * A miss calls the provider once; on success it upserts the described record
   * under the record's own `ip` (with `timezone` still in it) and returns that
   * record stripped; on failure it stores nothing.
   */
  lemma MissFetchesOnce(st: Store, ip: string, fetch: string -> Result<Record>)
    requires Str(ip) !in st.docs
    ensures var l := Process(st, ip, fetch);
            && l.fetched
            && (fetch(ip).Err? ==> l.result == Err(fetch(ip).error) && l.store == st)
            && (fetch(ip).Ok? ==>
                  var raw := fetch(ip).value;
                  var key := KeyOf(raw);
                  && l.result == Ok(Strip(Describe(raw)))
                  && l.store == Upsert(st, Describe(raw))
                  && key in l.store.docs
                  && l.store.docs[key].fields["description"] == Str(CreateDescription(raw))
                  && ("timezone" in raw ==> l.store.docs[key].fields["timezone"] == raw["timezone"]))
  {
    if fetch(ip).Ok? {
      var raw := fetch(ip).value;
      UpsertFacts(st, Describe(raw));
      assert KeyOf(Describe(raw)) == KeyOf(raw);
    }
  }

  /** No record handed back, on a hit or a miss, carries `_id` or `timezone`. */
  lemma NeverReturnsInternalFields(st: Store, ip: string, fetch: string -> Result<Record>)
    ensures var l := LookUp(st, ip, fetch);
            l.result.Ok? ==> "_id" !in l.result.value && "timezone" !in l.result.value
  {
  }

  /**
   * Resolving the same ip twice calls the provider at most once and returns
   * the same record both times, provided the provider echoes the requested ip
   * in its record's `ip` field (the upsert key).
   */
  lemma {:induction false} ResolveTwice(st: Store, ip: string, fetch: string -> Result<Record>)
    requires Indexed(st.docs)
    requires fetch(ip).Ok? ==> KeyOf(fetch(ip).value) == Str(ip)
    ensures var first := Process(st, ip, fetch);
            var second := Process(first.store, ip, fetch);
            first.result.Ok? ==> !second.fetched && second.result == first.result && second.store == first.store
  {
    var first := Process(st, ip, fetch);
    if Str(ip) !in st.docs && fetch(ip).Ok? {
      var raw := fetch(ip).value;
      var info := Describe(raw);
      UpsertFacts(st, info);
      assert KeyOf(info) == Str(ip);
      var stored := map["ip" := Str(ip)] + info;
      assert first.store.docs[Str(ip)] == Doc(st.nextId, stored);
      assert stored == info;
    }
  }

  /**
   * The lookup uses the requested string but the upsert uses the provider's
   * `ip` field: when the two differ, the next lookup of the same string misses
   * and calls the provider again.
   */
  lemma UnechoedIpIsFetchedAgain(st: Store, ip: string, fetch: string -> Result<Record>)
    requires Str(ip) !in st.docs
    requires fetch(ip).Ok? && KeyOf(fetch(ip).value) != Str(ip)
    ensures Process(Process(st, ip, fetch).store, ip, fetch).fetched
  {
    UpsertFacts(st, Describe(fetch(ip).value));
    assert KeyOf(Describe(fetch(ip).value)) == KeyOf(fetch(ip).value);
  }

  /** One element of the batch reply: `{status:true, data}` or `{status:false, message}`. */
  datatype ItemResult = Found(data: Record) | Missing(message: string)

  /** The batch run: the elements or the first error, the collection after, and the provider calls. */
  datatype BatchRun = BatchRun(result: Result<seq<ItemResult>>, store: Store, fetches: seq<string>)

  function Fetches(l: Lookup, ip: string): seq<string> {
    if l.fetched then [ip] else []
  }

  /** The run `run` continued after the elements `done` and the provider calls `calls`. */
  function Resume(done: seq<ItemResult>, calls: seq<string>, run: BatchRun): BatchRun {
    BatchRun(if run.result.Ok? then Ok(done + run.result.value) else run.result, run.store, calls + run.fetches)
  }

  /** Continuing after nothing is the run itself. */
  lemma ResumeNothing(run: BatchRun)
    ensures Resume([], [], run) == run
  {
    assert [] + run.fetches == run.fetches;
    if run.result.Ok? {
      assert [] + run.result.value == run.result.value;
    }
  }

  /** Continuing twice is continuing once after both prefixes. */
  lemma ResumeResume(a: seq<ItemResult>, c: seq<string>, b: seq<ItemResult>, d: seq<string>, run: BatchRun)
    ensures Resume(a, c, Resume(b, d, run)) == Resume(a + b, c + d, run)
  {
    assert c + (d + run.fetches) == (c + d) + run.fetches;
    if run.result.Ok? {
      assert a + (b + run.result.value) == (a + b) + run.result.value;
    }
  }

  /**
   * The handler's per-request map, in request order: a request without an ip
   * yields `Missing`, the others are looked up; the first lookup error ends the
   * whole batch.
   */
  function RunBatch(st: Store, reqs: seq<Option<string>>, fetch: string -> Result<Record>): BatchRun
    decreases |reqs|
  {
    if reqs == [] then BatchRun(Ok([]), st, [])
    else if !Truthy(reqs[0]) then Resume([Missing(RequiredMessage)], [], RunBatch(st, reqs[1..], fetch))
    else
      var l := LookUp(st, reqs[0].value, fetch);
      match l.result
      case Err(e) => BatchRun(Err(e), l.store, Fetches(l, reqs[0].value))
      case Ok(rec) => Resume([Found(rec)], Fetches(l, reqs[0].value), RunBatch(l.store, reqs[1..], fetch))
  }

  /**
   * A successful batch has one element per request, in request order: a
   * request without an ip is answered `IP address is required` while the
   * others still complete, and every found record lacks `_id` and `timezone`.
   * A failed batch failed on the provider's error for one of the requested ips.
   */
  lemma {:induction false} BatchShape(st: Store, reqs: seq<Option<string>>, fetch: string -> Result<Record>)
    ensures var run := RunBatch(st, reqs, fetch);
            && (run.result.Ok? ==>
                  && |run.result.value| == |reqs|
                  && (forall i :: 0 <= i < |reqs| && !Truthy(reqs[i]) ==> run.result.value[i] == Missing(RequiredMessage))
                  && (forall i :: 0 <= i < |reqs| && Truthy(reqs[i]) ==>
                        run.result.value[i].Found?
                        && "_id" !in run.result.value[i].data && "timezone" !in run.result.value[i].data))
            && (run.result.Err? ==> exists i :: 0 <= i < |reqs| && Truthy(reqs[i]) && fetch(reqs[i].value) == Err(run.result.error))
            && (forall j :: 0 <= j < |run.fetches| ==> Some(run.fetches[j]) in reqs)
    decreases |reqs|
  {
    if reqs != [] {
      var rest := reqs[1..];
      if !Truthy(reqs[0]) {
        BatchShape(st, rest, fetch);
        var tail := RunBatch(st, rest, fetch);
        if tail.result.Err? {
          var i :| 0 <= i < |rest| && Truthy(rest[i]) && fetch(rest[i].value) == Err(tail.result.error);
          assert reqs[i + 1] == rest[i];
        }
        forall j | 0 <= j < |tail.fetches| ensures Some(tail.fetches[j]) in reqs {
          assert Some(tail.fetches[j]) in rest;
        }
      } else {
        var ip := reqs[0].value;
        var l := LookUp(st, ip, fetch);
        if l.result.Err? {
          assert fetch(ip) == Err(l.result.error);
        } else {
          NeverReturnsInternalFields(st, ip, fetch);
          BatchShape(l.store, rest, fetch);
          var tail := RunBatch(l.store, rest, fetch);
          if tail.result.Err? {
            var i :| 0 <= i < |rest| && Truthy(rest[i]) && fetch(rest[i].value) == Err(tail.result.error);
            assert reqs[i + 1] == rest[i];
          }
          forall j | 0 <= j < |tail.fetches| ensures Some(tail.fetches[j]) in reqs {
            assert Some(tail.fetches[j]) in rest;
          }
        }
      }
    }
  }

  /**
   * A successful batch answers each request with its own lookup: element i is
   * the record found for request i's ip against the collection as the
   * requests before it left it.
   */
  lemma {:induction false} BatchElements(st: Store, reqs: seq<Option<string>>, fetch: string -> Result<Record>)
    ensures var run := RunBatch(st, reqs, fetch);
            run.result.Ok? ==>
              forall i | 0 <= i < |reqs| && Truthy(reqs[i]) ::
                var l := LookUp(RunBatch(st, reqs[..i], fetch).store, reqs[i].value, fetch);
                l.result.Ok? && i < |run.result.value| && run.result.value[i] == Found(l.result.value)
    decreases |reqs|
  {
    var run := RunBatch(st, reqs, fetch);
    if reqs != [] && run.result.Ok? {
      var rest := reqs[1..];
      var next := if Truthy(reqs[0]) then LookUp(st, reqs[0].value, fetch).store else st;
      var tail := RunBatch(next, rest, fetch);
      assert run.result.value == [if Truthy(reqs[0]) then Found(LookUp(st, reqs[0].value, fetch).result.value)
                                  else Missing(RequiredMessage)] + tail.result.value;
      BatchElements(next, rest, fetch);
      forall i | 1 <= i < |reqs| ensures RunBatch(st, reqs[..i], fetch).store == RunBatch(next, rest[..i - 1], fetch).store {
        assert reqs[..i][0] == reqs[0] && reqs[..i][1..] == rest[..i - 1];
      }
      assert reqs[..0] == [];
      forall i | 1 <= i < |reqs| && Truthy(reqs[i]) ensures run.result.value[i] == tail.result.value[i - 1] {
        assert reqs[i] == rest[i - 1];
      }
    }
  }

  /**
   * A batch whose every ip is cached fetches nothing, writes nothing, and
   * answers each request with its stored record stripped, or with
   * `IP address is required`.
   */
  lemma {:induction false} AllCachedBatch(st: Store, reqs: seq<Option<string>>, fetch: string -> Result<Record>)
    requires forall i | 0 <= i < |reqs| && Truthy(reqs[i]) :: Str(reqs[i].value) in st.docs
    ensures var run := RunBatch(st, reqs, fetch);
            && run.result.Ok? && run.store == st && run.fetches == [] && |run.result.value| == |reqs|
            && (forall i | 0 <= i < |reqs| && Truthy(reqs[i]) ::
                  run.result.value[i] == Found(Strip(st.docs[Str(reqs[i].value)].fields)))
            && (forall i | 0 <= i < |reqs| && !Truthy(reqs[i]) :: run.result.value[i] == Missing(RequiredMessage))
    decreases |reqs|
  {
    if reqs != [] {
      var rest := reqs[1..];
      assert forall i | 0 <= i < |rest| :: rest[i] == reqs[i + 1];
      AllCachedBatch(st, rest, fetch);
      var tail := RunBatch(st, rest, fetch);
      var head := if Truthy(reqs[0]) then Found(Strip(st.docs[Str(reqs[0].value)].fields)) else Missing(RequiredMessage);
      assert RunBatch(st, reqs, fetch) == BatchRun(Ok([head] + tail.result.value), st, [] + tail.fetches);
    }
  }

  /** The handler's answer once the method and the size of the batch have been accepted. */
  function BatchReply(run: BatchRun): Reply<ItemResult> {
    match run.result
    case Ok(items) => Reply(200, Envelope(true, SuccessMessage, Some(items)))
    case Err(e) => Failure(e)
  }

  /** The 400 answer to more than 50 requests. */
  const TooManyReply: Reply<ItemResult> := Reply(400, Envelope(false, TooManyMessage, Some([])))

  /**
   * The cache collection as the handler's process sees it, with the ips sent
   * to the provider, in order, as an observation.
   */
  class IpLookupCache {
    var docs: map<Value, Doc>
    var nextId: nat
    var fetches: seq<string>

    ghost predicate Valid()
      reads this
    {
      Indexed(docs)
    }

    function Snapshot(): Store
      reads this
    {
      Store(docs, nextId)
    }

    constructor (docs: map<Value, Doc>, nextId: nat)
      requires Indexed(docs)
      ensures Valid() && this.docs == docs && this.nextId == nextId && fetches == []
    {
      this.docs := docs;
      this.nextId := nextId;
      fetches := [];
    }

    /** storeInDB on the collection. */
    method StoreInDB(info: Record)
      requires Valid()
      modifies this
      ensures Valid()
      ensures Snapshot() == Upsert(old(Snapshot()), info) && fetches == old(fetches)
    {
      UpsertFacts(Snapshot(), info);
      var st := Upsert(Snapshot(), info);
      docs, nextId := st.docs, st.nextId;
    }

    /** processIp: find, or fetch, describe and store; then drop `_id` and `timezone`. */
    method ProcessIp(ip: string, fetch: string -> Result<Record>) returns (r: Result<Record>)
      requires Valid()
      modifies this
      ensures Valid()
      ensures var l := Process(old(Snapshot()), ip, fetch);
              r == l.result && Snapshot() == l.store && fetches == old(fetches) + Fetches(l, ip)
    {
      var ipInfo: Record;
      var found := FindInDB(Snapshot(), ip);
      if found.Some? {
        ipInfo := found.value;
      } else {
        fetches := fetches + [ip];
        var reply := fetch(ip);
        if reply.Err? {
          return Err(reply.error);
        }
        ipInfo := reply.value;
        ipInfo := ipInfo["description" := Str(CreateDescription(ipInfo))];
        ipInfo := ipInfo["detailedDescription" := Str(CreateDetailedDescription(ipInfo))];
        assert ipInfo == Describe(reply.value);
        StoreInDB(ipInfo);
      }
      ipInfo := ipInfo - {"_id"};
      ipInfo := ipInfo - {"timezone"};
      assert ipInfo == Strip(if found.Some? then found.value else Describe(fetch(ip).value));
      r := Ok(ipInfo);
    }

    /** IPAddressLookUp: reject an empty ip, otherwise processIp. */
    method IpAddressLookUp(ip: string, fetch: string -> Result<Record>) returns (r: Result<Record>)
      requires Valid()
      modifies this
      ensures Valid()
      ensures var l := LookUp(old(Snapshot()), ip, fetch);
              r == l.result && Snapshot() == l.store && fetches == old(fetches) + Fetches(l, ip)
    {
      if ip == "" {
        return Err(RequiredMessage);
      }
      r := ProcessIp(ip, fetch);
    }

    /** The per-request lookups of one accepted batch, in request order, stopping at the first error. */
    method LookUpAll(reqs: seq<Option<string>>, fetch: string -> Result<Record>) returns (result: Result<seq<ItemResult>>)
      requires Valid()
      modifies this
      ensures Valid()
      ensures var run := RunBatch(old(Snapshot()), reqs, fetch);
              && result == run.result && Snapshot() == run.store && fetches == old(fetches) + run.fetches
    {
      ghost var total := RunBatch(Snapshot(), reqs, fetch);
      ghost var calls: seq<string> := [];
      var results: seq<ItemResult> := [];
      var i := 0;
      assert reqs[0..] == reqs;
      ResumeNothing(total);
      while i < |reqs|
        invariant 0 <= i <= |reqs|
        invariant Valid()
        invariant total == Resume(results, calls, RunBatch(Snapshot(), reqs[i..], fetch))
        invariant fetches == old(fetches) + calls
      {
        assert reqs[i..][0] == reqs[i] && reqs[i..][1..] == reqs[i + 1..];
        if !Truthy(reqs[i]) {
          ResumeResume(results, calls, [Missing(RequiredMessage)], [], RunBatch(Snapshot(), reqs[i + 1..], fetch));
          assert calls + [] == calls;
          results := results + [Missing(RequiredMessage)];
        } else {
          ghost var before := Snapshot();
          var ipInfo := IpAddressLookUp(reqs[i].value, fetch);
          ghost var l := LookUp(before, reqs[i].value, fetch);
          ghost var now := Fetches(l, reqs[i].value);
          if ipInfo.Err? {
            calls := calls + now;
            return Err(ipInfo.error);
          }
          ResumeResume(results, calls, [Found(ipInfo.value)], now, RunBatch(Snapshot(), reqs[i + 1..], fetch));
          calls := calls + now;
          results := results + [Found(ipInfo.value)];
        }
        i := i + 1;
      }
      assert reqs[i..] == [];
      assert results + [] == results && calls + [] == calls;
      result := Ok(results);
    }

    /**
     * The handler: OPTIONS answers the static description; a method other
     * than GET or POST fails with 500; more than 50 requests are refused with
     * 400, `status:false` and `data: []` before any lookup; otherwise the
     * requests are answered in order, and any lookup error fails the whole
     * call with 500 and `Error: <message>`.
     */
    method Handle(verb: HttpMethod, query: Option<string>, body: Payload<Option<string>>,
                  fetch: string -> Result<Record>) returns (resp: Reply<ItemResult>)
      requires Valid()
      modifies this
      ensures Valid()
      ensures verb == OPTIONS ==> resp == Reply(200, InterfaceDescription) && unchanged(this)
      ensures verb != OPTIONS && Requests(verb, query, body).None? ==>
                resp == Failure(InvalidMethodMessage) && unchanged(this)
      ensures Requests(verb, query, body).Some? && TooMany(Requests(verb, query, body).value) ==>
                resp == TooManyReply && unchanged(this)
      ensures Requests(verb, query, body).Some? && !TooMany(Requests(verb, query, body).value) ==>
                var run := RunBatch(old(Snapshot()), Requests(verb, query, body).value, fetch);
                && resp == BatchReply(run) && Snapshot() == run.store && fetches == old(fetches) + run.fetches
    {
      if verb == OPTIONS {
        return Reply(200, InterfaceDescription);
      }
      var requests := Requests(verb, query, body);
      if requests.None? {
        return Failure(InvalidMethodMessage);
      }
      var reqs := requests.value;
      if |reqs| > MaxBatch {
        return TooManyReply;
      }
      var result := LookUpAll(reqs, fetch);
      resp := match result
        case Ok(items) => Reply(200, Envelope(true, SuccessMessage, Some(items)))
        case Err(e) => Failure(e);
    }
  }
}
