/**
 * Auth::StateTokenGenerator: issues the OAuth 2.0 `state` value (section 10.12
 * of RFC 6749). It checks the request, then the provider, binds the
 * request's fingerprint to a fresh store key with a time-to-live, and hands
 * out the encryption of that key. Each step fails fast with its own code.
 *
 * `Issue` is the whole run as a function of the store, the injected
 * collaborators, the clock and the random draw; `StateTokenGenerator.Call`
 * is the step-by-step service and is proved to agree with it.
 */
module StateTokenIssue {
  import opened Wrappers
  import opened Errors
  import opened Text
  import opened Crypto
  import opened Fingerprints
  import opened Store
  import opened BaseService

  const REFERENCE := "Auth::StateTokenGenerator"
  const GOOGLE := "GOOGLE"
  /** The supported providers. */
  const PROVIDERS: seq<string> := [GOOGLE]
  const KEY_PREFIX := "STATE_TOKEN"

  /** A call the service makes on a collaborator, in the order it makes them. */
  datatype IssueCall = SetRecord(key: string, value: string, ttl: int) | EncryptKey(key: string)

  /** A run: the error if it failed, the token if it succeeded, the store
      afterwards and the collaborator calls made. */
  datatype Issued = Issued(failure: Option<Custom>, token: Option<string>, entries: map<string, Entry>, calls: seq<IssueCall>)

  /** `validate_request`: the request must be present and an ActionDispatch::Request. */
  function ValidateRequest(request: Option<Request>): (e: Option<Custom>)
    ensures e.None? <==> request.Some? && request.value.isDispatchRequest
    ensures e.Some? ==> e.value.code == InvalidRequestType
  {
    if request.None? || !request.value.isDispatchRequest then Some(Custom(InvalidRequestType, "Request is invalid"))
    else None
  }

  /** `validate_provider`: the provider must be one of PROVIDERS. */
  function ValidateProvider(provider: string): (e: Option<Custom>)
    ensures e.None? <==> provider == GOOGLE
    ensures e.Some? ==> e.value.code == InvalidProvider
  {
    if provider !in PROVIDERS then Some(Custom(InvalidProvider, "Provider is invalid")) else None
  }

  /** `build_data_from_request`: the record {user_agent, ip_address}. */
  function BuildDataFromRequest(r: Request): (f: Fingerprint)
    ensures Matches(f, r)
  {
    Fingerprint(r.userAgent, r.ip)
  }

  /** `build_key_name`: "STATE_TOKEN:<provider>:<unix seconds>:<random hex>". */
  function BuildKeyName(provider: string, now: nat, hex: string): (key: string)
    ensures |key| > |KEY_PREFIX| && key[..|KEY_PREFIX| + 1] == KEY_PREFIX + ":"
  {
    KEY_PREFIX + ":" + provider + ":" + Decimal(now) + ":" + hex
  }

  /** EXPIRATION_TIME: the configured number of minutes (`to_i` of the
      environment variable, so 0 when it is unset or not a number), in
      seconds. The time-to-live is positive exactly when the minutes are. */
  function ExpirationTime(minutes: int): (seconds: int)
    ensures seconds == 60 * minutes
    ensures seconds > 0 <==> minutes > 0
  {
    minutes * 60
  }

  /** `generate_state_token`, with the `rescue` clauses of `persist_data_in_redis`
      and `encrypt_data`. A write the server refuses (a time-to-live that is
      not positive) is not rescued there and reaches the rescue of `call`. */
  function Issue(request: Option<Request>, provider: string, encryptor: Encryptor, json: JsonCodec,
                 minutes: int, entries: map<string, Entry>, connection: Connection, now: nat, hex: string): (r: Issued)
    ensures r.token.Some? <==> r.failure.None?
    // the store write strictly precedes the encryption of the key it wrote
    ensures |r.calls| <= 2
    ensures forall i :: 0 <= i < |r.calls| ==> (r.calls[i].EncryptKey? <==> i == 1)
    ensures |r.calls| == 2 ==> r.calls[1].key == r.calls[0].key
    ensures r.token.Some? ==> |r.calls| == 2
  {
    var requestError := ValidateRequest(request);
    if requestError.Some? then Issued(requestError, None, entries, [])
    else
      var providerError := ValidateProvider(provider);
      if providerError.Some? then Issued(providerError, None, entries, [])
      else
        var data := BuildDataFromRequest(request.value);
        var key := BuildKeyName(provider, now, hex);
        var value := json.dump(data);
        var ttl := ExpirationTime(minutes);
        var setCall := [SetRecord(key, value, ttl)];
        if connection.Down? then
          Issued(Some(Custom(RedisConnectionError, "Redis connection error: " + connection.message)), None, entries, setCall)
        else if ttl <= 0 then
          Issued(Some(Custom(UnexpectedError, INVALID_EXPIRE)), None, entries, setCall)
        else
          var written := Written(entries, key, value, ttl, now);
          match encryptor.encrypt(key)
          case EncryptRejected(m) =>
            Issued(Some(Custom(InvalidEncryptedPayload, "Invalid encrypted payload " + m)), None, written, setCall + [EncryptKey(key)])
          case Encrypted(t) =>
            Issued(None, Some(t), written, setCall + [EncryptKey(key)])
  }

  /** The key splits on ':' into its four parts (as Ruby's `split` does too,
      the random part being non-empty), and the timestamp part reads back as
      the issue time, provided neither provider nor random part contains
      ':'. */
  lemma KeyNameFields(provider: string, now: nat, hex: string)
    requires ':' !in provider && ':' !in hex && hex != ""
    ensures Split(BuildKeyName(provider, now, hex), ':') == [KEY_PREFIX, provider, Decimal(now), hex]
    ensures DigitsValue(Split(BuildKeyName(provider, now, hex), ':')[2]) == now
  {
    SplitKey(provider, now, hex);
    DecimalRoundTrip(now);
  }

  /** The ':'-fields of a key, whatever the random part. */
  lemma SplitKey(provider: string, now: nat, hex: string)
    requires ':' !in provider && ':' !in hex
    ensures Split(BuildKeyName(provider, now, hex), ':') == [KEY_PREFIX, provider, Decimal(now), hex]
  {
    var d := Decimal(now);
    assert ':' !in d by {
      forall i | 0 <= i < |d| ensures d[i] != ':' { assert IsDigit(d[i]); }
    }
    assert ':' !in KEY_PREFIX;
    assert BuildKeyName(provider, now, hex) == KEY_PREFIX + [':'] + provider + [':'] + d + [':'] + hex;
    SplitFour(KEY_PREFIX, provider, d, hex, ':');
  }

  /** A key issued for GOOGLE with a SecureRandom.hex(16) draw has the shape
      STATE_TOKEN:GOOGLE:<digits>:<32 lower-case hex digits>. */
  lemma IssuedKeyShape(now: nat, hex: string)
    requires IsHex32(hex)
    ensures var f := Split(BuildKeyName(GOOGLE, now, hex), ':');
      && |f| == 4 && f[0] == KEY_PREFIX && f[1] == GOOGLE
      && |f[2]| >= 1 && (forall i :: 0 <= i < |f[2]| ==> IsDigit(f[2][i]))
      && IsHex32(f[3])
  {
    assert ':' !in hex by {
      forall i | 0 <= i < |hex| ensures hex[i] != ':' { assert IsLowerHexDigit(hex[i]); }
    }
    KeyNameFields(GOOGLE, now, hex);
  }

  /** Two runs with different clock readings or random draws use different
      keys, so they never share a record. */
  lemma KeyNameInjective(provider: string, now1: nat, hex1: string, now2: nat, hex2: string)
    requires ':' !in provider && ':' !in hex1 && ':' !in hex2
    requires BuildKeyName(provider, now1, hex1) == BuildKeyName(provider, now2, hex2)
    ensures now1 == now2 && hex1 == hex2
  {
    SplitKey(provider, now1, hex1);
    SplitKey(provider, now2, hex2);
    DecimalInjective(now1, now2);
  }

  /** The request is checked before the provider: a missing or wrongly typed
      request gives INVALID_REQUEST_TYPE whatever the provider, and nothing is
      written or encrypted. */
  lemma IssueRejectsRequest(request: Option<Request>, provider: string, encryptor: Encryptor, json: JsonCodec,
                            minutes: int, entries: map<string, Entry>, connection: Connection, now: nat, hex: string)
    requires request.None? || !request.value.isDispatchRequest
    ensures var r := Issue(request, provider, encryptor, json, minutes, entries, connection, now, hex);
      && r.failure == Some(Custom(InvalidRequestType, "Request is invalid"))
      && r.token.None? && r.entries == entries && r.calls == []
  {
  }

  /** A provider outside PROVIDERS gives INVALID_PROVIDER; nothing is written
      or encrypted. */
  lemma IssueRejectsProvider(request: Request, provider: string, encryptor: Encryptor, json: JsonCodec,
                             minutes: int, entries: map<string, Entry>, connection: Connection, now: nat, hex: string)
    requires request.isDispatchRequest && provider != GOOGLE
    ensures var r := Issue(Some(request), provider, encryptor, json, minutes, entries, connection, now, hex);
      && r.failure == Some(Custom(InvalidProvider, "Provider is invalid"))
      && r.token.None? && r.entries == entries && r.calls == []
  {
  }

  /** An unreachable store gives REDIS_CONNECTION_ERROR; the write was tried,
      the key is never encrypted and no token is issued. */
  lemma IssueStoreDown(request: Request, encryptor: Encryptor, json: JsonCodec,
                       minutes: int, entries: map<string, Entry>, message: string, now: nat, hex: string)
    requires request.isDispatchRequest
    ensures var r := Issue(Some(request), GOOGLE, encryptor, json, minutes, entries, Down(message), now, hex);
      && r.failure == Some(Custom(RedisConnectionError, "Redis connection error: " + message))
      && r.token.None? && r.entries == entries
      && r.calls == [SetRecord(BuildKeyName(GOOGLE, now, hex), json.dump(BuildDataFromRequest(request)), ExpirationTime(minutes))]
  {
  }

  /** A configured expiration that is not positive makes the server refuse
      the SETEX: the run fails with the server's reply as an unexpected error,
      nothing is stored and the key is never encrypted. */
  lemma IssueRejectsExpiry(request: Request, encryptor: Encryptor, json: JsonCodec,
                           minutes: int, entries: map<string, Entry>, now: nat, hex: string)
    requires request.isDispatchRequest && minutes <= 0
    ensures var r := Issue(Some(request), GOOGLE, encryptor, json, minutes, entries, Up, now, hex);
      && r.failure == Some(Custom(UnexpectedError, INVALID_EXPIRE))
      && r.token.None? && r.entries == entries
      && r.calls == [SetRecord(BuildKeyName(GOOGLE, now, hex), json.dump(BuildDataFromRequest(request)), ExpirationTime(minutes))]
  {
  }

  /** A failed encryption gives INVALID_ENCRYPTED_PAYLOAD and no token, but the
      record already written stays in the store until it expires. */
  lemma IssueEncryptRejected(request: Request, encryptor: Encryptor, json: JsonCodec,
                             minutes: int, entries: map<string, Entry>, now: nat, hex: string)
    requires request.isDispatchRequest && minutes > 0
    requires encryptor.encrypt(BuildKeyName(GOOGLE, now, hex)).EncryptRejected?
    ensures var r := Issue(Some(request), GOOGLE, encryptor, json, minutes, entries, Up, now, hex);
      && r.failure.Some? && r.failure.value.code == InvalidEncryptedPayload && r.token.None?
      && Lookup(r.entries, BuildKeyName(GOOGLE, now, hex), now) == Some(json.dump(BuildDataFromRequest(request)))
  {
  }

  /** Issuing succeeds exactly when the request and provider are accepted, the
      store is reachable and the key encrypts. Then the token is the
      encryption of the key, and the store gains exactly the record holding the
      request's fingerprint, expiring EXPIRATION_TIME after `now`; every other
      record is as it was. */
  lemma IssueSucceedsIff(request: Option<Request>, provider: string, encryptor: Encryptor, json: JsonCodec,
                         minutes: int, entries: map<string, Entry>, connection: Connection, now: nat, hex: string)
    ensures var r := Issue(request, provider, encryptor, json, minutes, entries, connection, now, hex);
      var key := BuildKeyName(provider, now, hex);
      && (r.failure.None? <==>
            request.Some? && request.value.isDispatchRequest && provider == GOOGLE && connection.Up?
            && minutes > 0 && encryptor.encrypt(key).Encrypted?)
      && (r.failure.None? ==>
            && r.token == Some(encryptor.encrypt(key).token)
            && r.entries.Keys == entries.Keys + {key}
            && r.entries[key] == Entry(json.dump(BuildDataFromRequest(request.value)), now + ExpirationTime(minutes))
            && (forall k :: k in entries && k != key ==> r.entries[k] == entries[k]))
  {
  }

  class StateTokenGenerator {
    const request: Option<Request>
    const provider: string
    const encryptor: Encryptor
    const json: JsonCodec
    const redis: RedisStore
    /** STATE_TOKEN_EXPIRATION_TIME, in minutes. */
    const expirationMinutes: int
    const status: ServiceState
    var stateToken: Option<string>
    /** The collaborator calls of the latest `Call`, in order. */
    ghost var calls: seq<IssueCall>

    constructor (request: Option<Request>, provider: string, encryptor: Encryptor, json: JsonCodec,
                 redis: RedisStore, expirationMinutes: int)
      ensures this.request == request && this.provider == provider && this.redis == redis
      ensures this.encryptor == encryptor && this.json == json && this.expirationMinutes == expirationMinutes
      ensures fresh(status) && status.reference == REFERENCE && status.valid == None && status.errors == None
      ensures stateToken == None && calls == []
    {
      this.request := request;
      this.provider := provider;
      this.encryptor := encryptor;
      this.json := json;
      this.redis := redis;
      this.expirationMinutes := expirationMinutes;
      status := new ServiceState(REFERENCE);
      stateToken := None;
      calls := [];
    }

    /** `call`: one run of `Issue` on the store; validity and errors are set
        as the run ends, and `state_token` is assigned only on success. */
    method Call(now: nat, randomHex: string)
      modifies this, status, redis`entries
      ensures var r := Issue(request, provider, encryptor, json, expirationMinutes,
                             old(redis.entries), redis.connection, now, randomHex);
        && redis.entries == r.entries
        && calls == r.calls
        && stateToken == (if r.token.Some? then r.token else old(stateToken))
        && status.valid == Some(r.failure.None?)
        && status.errors == (if r.failure.Some? then Some(ServiceError(status.reference, r.failure.value.code, r.failure.value.message))
                             else old(status.errors))
    {
      calls := [];
      var requestError := ValidateRequest(request);
      if requestError.Some? {
        status.Fail(requestError.value);
        return;
      }
      var providerError := ValidateProvider(provider);
      if providerError.Some? {
        status.Fail(providerError.value);
        return;
      }
      var data := BuildDataFromRequest(request.value);
      var key := BuildKeyName(provider, now, randomHex);
      var value := json.dump(data);
      var ttl := ExpirationTime(expirationMinutes);
      calls := calls + [SetRecord(key, value, ttl)];
      var writeFailure := redis.Set(key, value, ttl, now);
      if writeFailure.Some? {
        match writeFailure.value {
          case CannotConnect(message) =>
            status.Fail(Custom(RedisConnectionError, "Redis connection error: " + message));
          case CommandRejected(message) =>
            status.Fail(Custom(UnexpectedError, message));
        }
        return;
      }
      calls := calls + [EncryptKey(key)];
      var encrypted := encryptor.encrypt(key);
      if encrypted.EncryptRejected? {
        status.Fail(Custom(InvalidEncryptedPayload, "Invalid encrypted payload " + encrypted.message));
        return;
      }
      stateToken := Some(encrypted.token);
      status.SetAsValid();
    }
  }
}
