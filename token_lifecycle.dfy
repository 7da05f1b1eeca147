/**
 * The upload-token cache of utils/getToken.ts: a token record read from one
 * of three stores (a process-wide memory slot, a JSON file on disk, a
 * singleton database document), judged stale with a five-minute buffer,
 * refreshed from the remote token issuer and written back to the same store;
 * plus the bounded linear-backoff connection loop and the memoized database
 * connection that the database store goes through.
 *
 * The clock is a parameter (milliseconds since the epoch), the issuer's reply
 * and the driver's connection attempts are oracles, and waits are recorded as
 * the durations requested rather than waited.
 */
module TokenLifecycle {

  import opened Common

  const TokenExpirationBuffer: int := 300   // seconds
  const DefaultAttempts: int := 5
  const RetryDelayUnitMs: nat := 1000
  const AttemptsExceededMessage := "Connection attempts exceeded."
  const FetchFailedMessage := "Unable to fetch token"

  /** What a store holds: any field may be missing; `{}` is `Empty`. */
  datatype TokenStore = TokenStore(token: Option<string>, issuedAt: Option<int>, expiresAt: Option<int>)

  const Empty := TokenStore(None, None, None)

  /** The issuer's reply body (epoch seconds). */
  datatype TokenResponse = TokenResponse(token: string, issuedAt: int, expiresAt: int)

  /** The backend selector; `Database` is the default. */
  datatype Storage = Database | Disk | Memory

  /** A connected client handed out by the database driver. */
  datatype Connection = Connection(id: nat)

  /** `client.db(name)`. */
  datatype Db = Db(client: Connection, name: string)

  /** `Math.floor(Date.now() / 1000)`: Dafny's `/` floors for a positive divisor. */
  function NowSeconds(nowMs: nat): int {
    nowMs / 1000
  }

  /**
   * isTokenExpired: expired when `expiresAt` is missing or 0 (falsy), or when
   * the current second has reached the last five minutes before expiry.
   */
  function IsTokenExpired(rec: TokenStore, nowMs: nat): (expired: bool)
    ensures expired <==> rec.expiresAt.None? || rec.expiresAt.value == 0
                         || NowSeconds(nowMs) >= rec.expiresAt.value - TokenExpirationBuffer
    ensures !expired ==> rec.expiresAt.value > NowSeconds(nowMs) + TokenExpirationBuffer
  {
    rec.expiresAt.None? || rec.expiresAt.value == 0
    || NowSeconds(nowMs) >= rec.expiresAt.value - TokenExpirationBuffer
  }

  /** Once a record is expired it stays expired as the clock moves on. */
  lemma {:induction false} ExpiryIsMonotone(rec: TokenStore, earlierMs: nat, laterMs: nat)
    requires earlierMs <= laterMs
    requires IsTokenExpired(rec, earlierMs)
    ensures IsTokenExpired(rec, laterMs)
  {
    FloorDivMonotone(earlierMs, laterMs);
  }

  lemma FloorDivMonotone(a: nat, b: nat)
    requires a <= b
    ensures a / 1000 <= b / 1000
  {
    assert a == 1000 * (a / 1000) + a % 1000;
    assert b == 1000 * (b / 1000) + b % 1000;
  }

  /** The condition of the refresh branch: no (or an empty) token, or expired. */
  predicate NeedsRefresh(rec: TokenStore, nowMs: nat) {
    !Truthy(rec.token) || IsTokenExpired(rec, nowMs)
  }

  /** A missing record (`{}`, as a missing file or document reads) always forces a refresh. */
  lemma EmptyForcesRefresh(nowMs: nat)
    ensures NeedsRefresh(Empty, nowMs)
  {
  }

  /** fetchToken: the issuer's three fields, or `Unable to fetch token` on any failure. */
  function FetchToken(reply: Result<TokenResponse>): (r: Result<TokenStore>)
    ensures r.Ok? <==> reply.Ok?
    ensures r.Ok? ==> r.value.token == Some(reply.value.token)
                      && r.value.issuedAt == Some(reply.value.issuedAt)
                      && r.value.expiresAt == Some(reply.value.expiresAt)
    ensures r.Err? ==> r.error == FetchFailedMessage
  {
    match reply
    case Ok(t) => Ok(TokenStore(Some(t.token), Some(t.issuedAt), Some(t.expiresAt)))
    case Err(_) => Err(FetchFailedMessage)
  }

  /** What getToken does once it has read `read`: keep it, replace it, or fail. */
  datatype Decision = Keep(token: string) | Replace(rec: TokenStore) | IssuerFailed

  function Decide(read: TokenStore, nowMs: nat, issued: Result<TokenResponse>): (d: Decision)
    ensures d.Keep? <==> !NeedsRefresh(read, nowMs)
    ensures d.Keep? ==> read.token == Some(d.token) && d.token != ""
                        && read.expiresAt.value > NowSeconds(nowMs) + TokenExpirationBuffer
    ensures d.Replace? <==> NeedsRefresh(read, nowMs) && issued.Ok?
    ensures d.Replace? ==> FetchToken(issued) == Ok(d.rec) && d.rec.token == Some(issued.value.token)
    ensures d.IssuerFailed? <==> NeedsRefresh(read, nowMs) && issued.Err?
  {
    if !NeedsRefresh(read, nowMs) then Keep(read.token.value)
    else match FetchToken(issued)
      case Ok(rec) => Replace(rec)
      case Err(_) => IssuerFailed
  }

  /**
   * A refreshed record is kept by every later call whose clock is still more
   * than five minutes before its expiry, whatever the issuer would say then.
   */
  lemma RefreshedRecordIsKept(reply: TokenResponse, nowMs: nat, laterMs: nat, issued: Result<TokenResponse>)
    requires Decide(Empty, nowMs, Ok(reply)).Replace?
    requires reply.token != ""
    requires NowSeconds(laterMs) + TokenExpirationBuffer < reply.expiresAt
    ensures Decide(Decide(Empty, nowMs, Ok(reply)).rec, laterMs, issued) == Keep(reply.token)
  {
  }

  /**
   * The refresh path hands back the issuer's token without looking at its
   * expiry: an issuer reply that is already expired is returned (and stored)
   * as it is.
   */
  lemma RefreshedTokenIsNotRechecked(nowMs: nat)
    ensures var d := Decide(Empty, nowMs, Ok(TokenResponse("t", 0, 0)));
            d.Replace? && d.rec.token == Some("t") && IsTokenExpired(d.rec, nowMs)
  {
  }

  /**
   * The database save is an upsert with `$set`: each field present in the
   * update replaces the document's, the others are kept.
   */
  function SetFields(doc: TokenStore, update: TokenStore): (r: TokenStore)
    ensures update.token.Some? ==> r.token == update.token
    ensures update.token.None? ==> r.token == doc.token
    ensures update.issuedAt.Some? ==> r.issuedAt == update.issuedAt
    ensures update.issuedAt.None? ==> r.issuedAt == doc.issuedAt
    ensures update.expiresAt.Some? ==> r.expiresAt == update.expiresAt
    ensures update.expiresAt.None? ==> r.expiresAt == doc.expiresAt
  {
    TokenStore(
      if update.token.Some? then update.token else doc.token,
      if update.issuedAt.Some? then update.issuedAt else doc.issuedAt,
      if update.expiresAt.Some? then update.expiresAt else doc.expiresAt)
  }

  /** A fetched record has all three fields, so `$set` with it replaces the whole record. */
  lemma SetFetchedReplaces(doc: TokenStore, reply: TokenResponse)
    ensures SetFields(doc, FetchToken(Ok(reply)).value) == FetchToken(Ok(reply)).value
  {
  }

  /** The durations requested between attempts, the attempts made, and the outcome. */
  datatype RetryRun = RetryRun(result: Result<Connection>, tries: nat, waits: seq<nat>)

  /**
   * connectWithRetry from attempt number `attempt` on: success returns the
   * client; a failure before the last attempt waits `1000 * attempt` ms and
   * tries again; a failure on the last attempt rethrows that attempt's error;
   * no attempt at all (attempts < 1) throws `Connection attempts exceeded.`.
   */
  function RetryFrom(attempt: int, attempts: int, tryConnect: int -> Result<Connection>): RetryRun
    requires attempt >= 1
    decreases attempts - attempt
  {
    if attempt > attempts then RetryRun(Err(AttemptsExceededMessage), 0, [])
    else if tryConnect(attempt).Ok? || attempt == attempts then RetryRun(tryConnect(attempt), 1, [])
    else
      var rest := RetryFrom(attempt + 1, attempts, tryConnect);
      RetryRun(rest.result, rest.tries + 1, [RetryDelayUnitMs * attempt] + rest.waits)
  }

  function Retry(attempts: int, tryConnect: int -> Result<Connection>): RetryRun {
    RetryFrom(1, attempts, tryConnect)
  }

  lemma {:induction false} RetryFromFacts(attempt: int, attempts: int, tryConnect: int -> Result<Connection>)
    requires attempt >= 1
    ensures var run := RetryFrom(attempt, attempts, tryConnect);
            && (run.tries == 0 <==> attempt > attempts)
            && (run.tries == 0 ==> run.result == Err(AttemptsExceededMessage) && run.waits == [])
            && (run.tries > 0 ==> attempt + run.tries - 1 <= attempts
                                  && run.result == tryConnect(attempt + run.tries - 1))
            && (forall k :: attempt <= k < attempt + run.tries - 1 ==> tryConnect(k).Err?)
            && (run.tries > 0 && run.result.Err? ==> attempt + run.tries - 1 == attempts)
            && |run.waits| == (if run.tries == 0 then 0 else run.tries - 1)
            && (forall i :: 0 <= i < |run.waits| ==> run.waits[i] == RetryDelayUnitMs * (attempt + i))
    decreases attempts - attempt
  {
    if attempt <= attempts && tryConnect(attempt).Err? && attempt < attempts {
      RetryFromFacts(attempt + 1, attempts, tryConnect);
    }
  }

  /**
   * The retry loop makes at most `attempts` attempts; every attempt before the
   * last one made failed; the outcome is the last attempt's own (success or
   * error); an error outcome means every one of the `attempts` attempts failed;
   * and the k-th wait is 1000 * k ms, one fewer wait than attempts.
   */
  lemma RetryFacts(attempts: int, tryConnect: int -> Result<Connection>)
    ensures var run := Retry(attempts, tryConnect);
            && (attempts < 1 ==> run == RetryRun(Err(AttemptsExceededMessage), 0, []))
            && (attempts >= 1 ==> 1 <= run.tries <= attempts && run.result == tryConnect(run.tries))
            && (forall k :: 1 <= k < run.tries ==> tryConnect(k).Err?)
            && (attempts >= 1 && run.result.Err? ==> run.tries == attempts)
            && |run.waits| == (if run.tries == 0 then 0 else run.tries - 1)
            && (forall i :: 0 <= i < |run.waits| ==> run.waits[i] == RetryDelayUnitMs * (i + 1))
  {
    RetryFromFacts(1, attempts, tryConnect);
  }

  /** A connector failing on attempts 1 to 4 and succeeding on the 5th yields that connection. */
  lemma FifthAttemptSucceeds(tryConnect: int -> Result<Connection>)
    requires forall k :: 1 <= k <= 4 ==> tryConnect(k).Err?
    requires tryConnect(5).Ok?
    ensures Retry(DefaultAttempts, tryConnect) == RetryRun(tryConnect(5), 5, [1000, 2000, 3000, 4000])
  {
    RetryFacts(DefaultAttempts, tryConnect);
    var run := Retry(DefaultAttempts, tryConnect);
    assert run.tries == 5;
    assert run.waits == [1000, 2000, 3000, 4000];
  }

  /** A connector failing on all five attempts surfaces the fifth attempt's error. */
  lemma AllAttemptsFail(tryConnect: int -> Result<Connection>)
    requires forall k :: 1 <= k <= 5 ==> tryConnect(k).Err?
    ensures Retry(DefaultAttempts, tryConnect).result == tryConnect(5)
    ensures Retry(DefaultAttempts, tryConnect).tries == 5
  {
    RetryFacts(DefaultAttempts, tryConnect);
  }

  /** The run `run` resumed after `tries` failed attempts that requested `waits`. */
  function Resume(tries: nat, waits: seq<nat>, run: RetryRun): RetryRun {
    RetryRun(run.result, tries + run.tries, waits + run.waits)
  }

  /** connectWithRetry: the counted loop of attempts with linear backoff. */
  method ConnectWithRetry(attempts: int := DefaultAttempts, tryConnect: int -> Result<Connection>)
    returns (r: Result<Connection>, tries: nat, waits: seq<nat>)
    ensures RetryRun(r, tries, waits) == Retry(attempts, tryConnect)
  {
    var attempt := 1;
    tries, waits := 0, [];
    while attempt <= attempts
      invariant 1 <= attempt
      invariant attempt > 1 ==> attempt <= attempts
      invariant tries == attempt - 1
      invariant Retry(attempts, tryConnect) == Resume(tries, waits, RetryFrom(attempt, attempts, tryConnect))
      decreases attempts - attempt
    {
      var outcome := tryConnect(attempt);
      tries := tries + 1;
      if outcome.Ok? {
        return outcome, tries, waits;
      }
      if attempt < attempts {
        waits := waits + [RetryDelayUnitMs * attempt];
      } else {
        return outcome, tries, waits;
      }
      attempt := attempt + 1;
    }
    r := Err(AttemptsExceededMessage);
  }

  /**
   * The module-level state of utils/getToken.ts: the memory slot, the token
   * file (None: it does not exist), the database document (None: there is no
   * document named `tokenStore`), and the memoized client and db. The last
   * four fields only record what was done: waits requested, connection
   * attempts, issuer calls and store writes.
   */
  class TokenManager {
    var memoryTokenStore: TokenStore
    var tokenFile: Option<TokenStore>
    var tokenDoc: Option<TokenStore>
    var client: Option<Connection>
    var db: Option<Db>
    const dbName: string

    var sleeps: seq<nat>
    var connectAttempts: nat
    var issuerCalls: nat
    var writes: seq<Storage>

    /** The db handle exists exactly when the client does, and belongs to it. */
    ghost predicate Valid()
      reads this
    {
      (client.None? <==> db.None?) && (db.Some? ==> db.value == Db(client.value, dbName))
    }

    /** A fresh process: empty memory slot, no connection; file and document as found. */
    constructor (dbName: string, tokenFile: Option<TokenStore>, tokenDoc: Option<TokenStore>)
      ensures Valid()
      ensures this.dbName == dbName && this.tokenFile == tokenFile && this.tokenDoc == tokenDoc
      ensures memoryTokenStore == Empty && client.None? && db.None?
      ensures sleeps == [] && connectAttempts == 0 && issuerCalls == 0 && writes == []
    {
      this.dbName := dbName;
      this.tokenFile := tokenFile;
      this.tokenDoc := tokenDoc;
      memoryTokenStore := Empty;
      client, db := None, None;
      sleeps, connectAttempts, issuerCalls, writes := [], 0, 0, [];
    }

    /**
     * connectToMongo: the retry loop runs only while there is no client; after
     * a success every call returns the memoized db and attempts nothing.
     */
    method ConnectToMongo(tryConnect: int -> Result<Connection>) returns (r: Result<Db>)
      requires Valid()
      modifies this
      ensures Valid()
      ensures old(client).Some? ==> r == Ok(old(db).value) && unchanged(this)
      ensures old(client).None? ==>
                var run := Retry(DefaultAttempts, tryConnect);
                && connectAttempts == old(connectAttempts) + run.tries
                && sleeps == old(sleeps) + run.waits
                && (run.result.Ok? ==> client == Some(run.result.value) && r == Ok(Db(run.result.value, dbName)))
                && (run.result.Err? ==> client.None? && r == Err(run.result.error))
      ensures r.Ok? ==> db == Some(r.value)
      ensures memoryTokenStore == old(memoryTokenStore) && tokenFile == old(tokenFile) && tokenDoc == old(tokenDoc)
      ensures issuerCalls == old(issuerCalls) && writes == old(writes)
    {
      if client.None? {
        var c, tries, waits := ConnectWithRetry(tryConnect := tryConnect);
        connectAttempts := connectAttempts + tries;
        sleeps := sleeps + waits;
        if c.Err? {
          return Err(c.error);
        }
        client := Some(c.value);
        db := Some(Db(c.value, dbName));
      }
      r := Ok(db.value);
    }

    /** getTokenFromMemory: the slot as it is. */
    function GetTokenFromMemory(): (rec: TokenStore)
      reads this
    {
      memoryTokenStore
    }

    /** getTokenFromDisk: the file's record, or `{}` when there is no file. */
    function GetTokenFromDisk(): (rec: TokenStore)
      reads this
      ensures tokenFile.None? ==> rec == Empty
      ensures tokenFile.Some? ==> rec == tokenFile.value
    {
      tokenFile.GetOr(Empty)
    }

    /** saveTokenToMemory: the whole slot is replaced. */
    method SaveTokenToMemory(rec: TokenStore)
      modifies this
      ensures memoryTokenStore == rec && writes == old(writes) + [Memory]
      ensures tokenFile == old(tokenFile) && tokenDoc == old(tokenDoc)
      ensures client == old(client) && db == old(db)
      ensures sleeps == old(sleeps) && connectAttempts == old(connectAttempts) && issuerCalls == old(issuerCalls)
    {
      memoryTokenStore := rec;
      writes := writes + [Memory];
    }

    /** saveTokenToDisk: the whole file is overwritten. */
    method SaveTokenToDisk(rec: TokenStore)
      modifies this
      ensures tokenFile == Some(rec) && writes == old(writes) + [Disk]
      ensures memoryTokenStore == old(memoryTokenStore) && tokenDoc == old(tokenDoc)
      ensures client == old(client) && db == old(db)
      ensures sleeps == old(sleeps) && connectAttempts == old(connectAttempts) && issuerCalls == old(issuerCalls)
    {
      tokenFile := Some(rec);
      writes := writes + [Disk];
    }

    /** getTokenFromDatabase: connect, then the document or `{}` when there is none. */
    method GetTokenFromDatabase(tryConnect: int -> Result<Connection>) returns (r: Result<TokenStore>)
      requires Valid()
      modifies this
      ensures Valid()
      ensures old(client).Some? ==> unchanged(this)
      ensures old(client).None? ==>
                var run := Retry(DefaultAttempts, tryConnect);
                && connectAttempts == old(connectAttempts) + run.tries
                && sleeps == old(sleeps) + run.waits
                && (run.result.Ok? ==> client == Some(run.result.value))
                && (run.result.Err? ==> client.None? && r == Err(run.result.error))
      ensures r.Ok? <==> old(client).Some? || Retry(DefaultAttempts, tryConnect).result.Ok?
      ensures r.Ok? ==> r.value == tokenDoc.GetOr(Empty)
      ensures memoryTokenStore == old(memoryTokenStore) && tokenFile == old(tokenFile) && tokenDoc == old(tokenDoc)
      ensures issuerCalls == old(issuerCalls) && writes == old(writes)
    {
      var conn := ConnectToMongo(tryConnect);
      if conn.Err? {
        return Err(conn.error);
      }
      r := Ok(tokenDoc.GetOr(Empty));
    }

    /** saveTokenToDatabase: connect, then upsert the document with `$set`. */
    method SaveTokenToDatabase(rec: TokenStore, tryConnect: int -> Result<Connection>) returns (r: Result<()>)
      requires Valid()
      requires client.Some?
      modifies this
      ensures Valid()
      ensures r.Ok?
      ensures tokenDoc == Some(SetFields(old(tokenDoc).GetOr(Empty), rec)) && writes == old(writes) + [Database]
      ensures memoryTokenStore == old(memoryTokenStore) && tokenFile == old(tokenFile)
      ensures client == old(client) && db == old(db)
      ensures sleeps == old(sleeps) && connectAttempts == old(connectAttempts) && issuerCalls == old(issuerCalls)
    {
      var conn := ConnectToMongo(tryConnect);
      tokenDoc := Some(SetFields(tokenDoc.GetOr(Empty), rec));
      writes := writes + [Database];
      r := Ok(());
    }

    /** The record `storage` currently reads as. */
    function Stored(storage: Storage): TokenStore
      reads this
    {
      match storage
      case Memory => GetTokenFromMemory()
      case Disk => GetTokenFromDisk()
      case Database => tokenDoc.GetOr(Empty)
    }

    /** The database store cannot be read: no client yet and every attempt fails. */
    predicate DatabaseDown(storage: Storage, tryConnect: int -> Result<Connection>)
      reads this
    {
      storage == Database && client.None? && Retry(DefaultAttempts, tryConnect).result.Err?
    }

    /**
     * getToken: read the chosen store; a record with a token that is not
     * expired is returned unchanged with no issuer call and no write; otherwise
     * the issuer is called once and, if it answers, its record is written to
     * the same store (and no other) and its token returned; if it fails,
     * `Unable to fetch token` and nothing is written. An unreachable database
     * fails with the connection's error before the issuer is called.
     */
    method GetToken(storage: Storage := Database, nowMs: nat, issued: Result<TokenResponse>, tryConnect: int -> Result<Connection>)
      returns (r: Result<string>)
      requires Valid()
      modifies this
      ensures Valid()
      ensures old(DatabaseDown(storage, tryConnect)) ==>
                && r == Err(Retry(DefaultAttempts, tryConnect).result.error)
                && issuerCalls == old(issuerCalls) && writes == old(writes)
                && tokenDoc == old(tokenDoc)
      ensures !old(DatabaseDown(storage, tryConnect)) ==>
                var d := Decide(old(Stored(storage)), nowMs, issued);
                && (d.Keep? ==> r == Ok(d.token))
                && (d.Replace? ==> r == Ok(issued.value.token) && Stored(storage) == d.rec)
                && (d.IssuerFailed? ==> r == Err(FetchFailedMessage))
                && issuerCalls == old(issuerCalls) + (if d.Keep? then 0 else 1)
                && writes == old(writes) + (if d.Replace? then [storage] else [])
                && memoryTokenStore == (if storage == Memory && d.Replace? then d.rec else old(memoryTokenStore))
                && tokenFile == (if storage == Disk && d.Replace? then Some(d.rec) else old(tokenFile))
                && tokenDoc == (if storage == Database && d.Replace? then Some(d.rec) else old(tokenDoc))
      ensures storage != Database ==> client == old(client) && db == old(db) && sleeps == old(sleeps)
                                      && connectAttempts == old(connectAttempts)
      ensures storage == Database && old(client).Some? ==>
                client == old(client) && db == old(db) && sleeps == old(sleeps)
                && connectAttempts == old(connectAttempts)
      ensures storage == Database && old(client).None? ==>
                var run := Retry(DefaultAttempts, tryConnect);
                && connectAttempts == old(connectAttempts) + run.tries
                && sleeps == old(sleeps) + run.waits
                && client == (if run.result.Ok? then Some(run.result.value) else None)
      ensures memoryTokenStore != old(memoryTokenStore) ==> storage == Memory
      ensures tokenFile != old(tokenFile) ==> storage == Disk
    {
      var tokenStore := Empty;
      ghost var read := Stored(storage);
      match storage {
        case Disk => tokenStore := GetTokenFromDisk();
        case Memory => tokenStore := GetTokenFromMemory();
        case Database =>
          var fromDb := GetTokenFromDatabase(tryConnect);
          if fromDb.Err? {
            return Err(fromDb.error);
          }
          tokenStore := fromDb.value;
      }
      assert tokenStore == read;
      if NeedsRefresh(tokenStore, nowMs) {
        issuerCalls := issuerCalls + 1;
        var fetched := FetchToken(issued);
        if fetched.Err? {
          return Err(fetched.error);
        }
        tokenStore := fetched.value;
        match storage {
          case Disk => SaveTokenToDisk(tokenStore);
          case Memory => SaveTokenToMemory(tokenStore);
          case Database =>
            var saved := SaveTokenToDatabase(tokenStore, tryConnect);
            SetFetchedReplaces(old(tokenDoc).GetOr(Empty), issued.value);
        }
      }
      r := Ok(tokenStore.token.value);
    }
  }

  /**
   * The memory scenario: against an empty slot the first call makes one issuer
   * call and one write; a second call while the fetched token is still outside
   * the buffer makes no issuer call and returns the same token.
   */
  method MemoryRefreshThenReuse(m: TokenManager, firstMs: nat, laterMs: nat, reply: TokenResponse,
                                 laterIssued: Result<TokenResponse>, tryConnect: int -> Result<Connection>)
    returns (first: Result<string>, second: Result<string>)
    requires m.Valid() && m.memoryTokenStore == Empty
    requires reply.token != "" && NowSeconds(laterMs) + TokenExpirationBuffer < reply.expiresAt
    modifies m
    ensures first == Ok(reply.token) && second == Ok(reply.token)
    ensures m.issuerCalls == old(m.issuerCalls) + 1 && m.writes == old(m.writes) + [Memory]
  {
    first := m.GetToken(Memory, firstMs, Ok(reply), tryConnect);
    second := m.GetToken(Memory, laterMs, laterIssued, tryConnect);
  }
}
