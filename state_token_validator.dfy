/**
 * Auth::StateTokenValidator: checks the `state` value that comes back on the
 * OAuth 2.0 callback. It decrypts the token to a store key, reads the record,
 * parses it, deletes it (single use) and compares its fingerprint with the
 * callback request's. The record is deleted only after it parsed, and before
 * the fingerprints are compared.
 *
 * `Validate` is the whole run as a function; `StateTokenValidator.Call` is the
 * service and is proved to agree with it.
 */
module StateTokenCheck {
  import opened Wrappers
  import opened Errors
  import opened Text
  import opened Crypto
  import opened Fingerprints
  import opened Store
  import opened BaseService

  const REFERENCE := "Auth::StateTokenValidator"

  /** A call the service makes on a collaborator, in the order it makes them. */
  datatype ValidateCall = DecryptToken(token: string) | GetRecord(key: string) | DeleteRecord(key: string)

  /** A run: the error if it failed, the store afterwards and the calls made. */
  datatype Validated = Validated(failure: Option<Custom>, entries: map<string, Entry>, calls: seq<ValidateCall>)

  /** `validate_params`: both the token and the request must be present. */
  function ValidateParams(token: Option<string>, request: Option<Request>): (e: Option<Custom>)
    ensures e.None? <==> !BlankOrNil(token) && request.Some?
    ensures e.Some? ==> e.value.code == EmptyParams
  {
    if BlankOrNil(token) || request.None? then Some(Custom(EmptyParams, "State token and request are required"))
    else None
  }

  /** `decrypt_state_token`: the store key, or the error its rescue (or the
      service's generic rescue, for other decryption failures) reports. */
  function DecryptStateToken(encryptor: Encryptor, token: string): (r: Result<string, Custom>)
    ensures r.Ok? <==> encryptor.decrypt(token).Decrypted? && !Blank(encryptor.decrypt(token).plain)
    ensures r.Ok? ==> r.value == encryptor.decrypt(token).plain
    ensures encryptor.decrypt(token).DecryptRejected? ==> r.Err? && r.error.code == InvalidEncryptedPayload
    // a token that is not Base64 escapes the rescue and reaches `call`'s
    ensures encryptor.decrypt(token).DecodeFailed? ==> r == Err(Custom(UnexpectedError, encryptor.decrypt(token).message))
  {
    match encryptor.decrypt(token)
    case DecryptRejected(m) => Err(Custom(InvalidEncryptedPayload, "Invalid encrypted payload: " + m))
    case DecodeFailed(m) => Err(Custom(UnexpectedError, m))
    case Decrypted(key) =>
      if Blank(key) then Err(Custom(InvalidStateToken, "Invalid state token")) else Ok(key)
  }

  /** `validate_state_token` with `get_redis_data` and `validate_data`. */
  function Validate(token: Option<string>, request: Option<Request>, encryptor: Encryptor, json: JsonCodec,
                    entries: map<string, Entry>, connection: Connection, now: int): (r: Validated)
    // the store only ever loses the record of the decrypted key
    ensures r.entries == entries || exists key :: key in entries && r.entries == entries - {key}
  {
    var paramsError := ValidateParams(token, request);
    if paramsError.Some? then Validated(paramsError, entries, [])
    else
      var decryptCall := [DecryptToken(token.value)];
      match DecryptStateToken(encryptor, token.value)
      case Err(e) => Validated(Some(e), entries, decryptCall)
      case Ok(key) =>
        var getCall := decryptCall + [GetRecord(key)];
        if connection.Down? then Validated(Some(Custom(UnexpectedError, connection.message)), entries, getCall)
        else
          var stored := Lookup(entries, key, now);
          if BlankOrNil(stored) then Validated(Some(Custom(InvalidRedisKey, "Invalid redis key")), entries, getCall)
          else
            match json.parse(stored.value)
            case ParseFailed(m) =>
              Validated(Some(Custom(JsonParserError, "Failed to parse JSON: " + m)), entries, getCall)
            case Parsed(record) =>
              var consumed := entries - {key};
              var delCall := getCall + [DeleteRecord(key)];
              if Matches(record, request.value) then Validated(None, consumed, delCall)
              else Validated(Some(Custom(InvalidData, "Invalid token data")), consumed, delCall)
  }

  /** A blank token or a missing request gives EMPTY_PARAMS before anything
      else: the token is not decrypted and the store is neither read nor
      changed. */
  lemma ValidateRejectsEmptyParams(token: Option<string>, request: Option<Request>, encryptor: Encryptor, json: JsonCodec,
                                   entries: map<string, Entry>, connection: Connection, now: int)
    requires BlankOrNil(token) || request.None?
    ensures var r := Validate(token, request, encryptor, json, entries, connection, now);
      && r.failure.Some? && r.failure.value.code == EmptyParams
      && r.entries == entries && r.calls == []
  {
  }

  /** A token the encryptor rejects (tampered or foreign) gives
      INVALID_ENCRYPTED_PAYLOAD, and one that decrypts to a blank key gives
      INVALID_STATE_TOKEN; in both cases the store is neither read nor changed. */
  lemma ValidateRejectsUndecryptable(token: string, request: Request, encryptor: Encryptor, json: JsonCodec,
                                     entries: map<string, Entry>, connection: Connection, now: int)
    requires !Blank(token)
    requires encryptor.decrypt(token).DecryptRejected? || (encryptor.decrypt(token).Decrypted? && Blank(encryptor.decrypt(token).plain))
    ensures var r := Validate(Some(token), Some(request), encryptor, json, entries, connection, now);
      && r.failure.Some?
      && r.failure.value.code == (if encryptor.decrypt(token).DecryptRejected? then InvalidEncryptedPayload else InvalidStateToken)
      && r.entries == entries && r.calls == [DecryptToken(token)]
  {
  }

  /** A key with no live record (never issued, expired or already used) gives
      INVALID_REDIS_KEY and leaves the store as it was. */
  lemma ValidateRejectsUnknownKey(token: string, request: Request, encryptor: Encryptor, json: JsonCodec,
                                  entries: map<string, Entry>, now: int)
    requires !Blank(token) && encryptor.decrypt(token).Decrypted?
    requires var key := encryptor.decrypt(token).plain; !Blank(key) && Lookup(entries, key, now).None?
    ensures var r := Validate(Some(token), Some(request), encryptor, json, entries, Up, now);
      && r.failure == Some(Custom(InvalidRedisKey, "Invalid redis key")) && r.entries == entries
  {
  }

  /** A stored value that does not parse gives JSON_PARSER_ERROR, and the record
      is not deleted: the parse comes before the delete. */
  lemma ValidateKeepsUnparsableRecord(token: string, request: Request, encryptor: Encryptor, json: JsonCodec,
                                      entries: map<string, Entry>, now: int)
    requires !Blank(token) && encryptor.decrypt(token).Decrypted?
    requires var key := encryptor.decrypt(token).plain;
      && !Blank(key) && Lookup(entries, key, now).Some? && !Blank(Lookup(entries, key, now).value)
      && json.parse(Lookup(entries, key, now).value).ParseFailed?
    ensures var r := Validate(Some(token), Some(request), encryptor, json, entries, Up, now);
      && r.failure.Some? && r.failure.value.code == JsonParserError
      && r.entries == entries && DeleteRecord(encryptor.decrypt(token).plain) !in r.calls
  {
  }

  /** Validation succeeds exactly when the token decrypts to a key whose live
      record parses and matches the request's user agent and IP. Once the
      record has parsed it is deleted, whether the fingerprints then match or
      not; a mismatch gives INVALID_DATA. */
  lemma ValidateSucceedsIff(token: Option<string>, request: Option<Request>, encryptor: Encryptor, json: JsonCodec,
                            entries: map<string, Entry>, connection: Connection, now: int)
    ensures var r := Validate(token, request, encryptor, json, entries, connection, now);
      var key := if token.Some? && encryptor.decrypt(token.value).Decrypted? then encryptor.decrypt(token.value).plain else "";
      var stored := Lookup(entries, key, now);
      var parses := !BlankOrNil(token) && request.Some? && encryptor.decrypt(token.value).Decrypted? && !Blank(key)
                    && connection.Up? && !BlankOrNil(stored) && json.parse(stored.value).Parsed?;
      && (r.failure.None? <==> parses && Matches(json.parse(stored.value).record, request.value))
      && (parses ==> r.entries == entries - {key} && r.calls[|r.calls| - 1] == DeleteRecord(key))
      && (parses && !Matches(json.parse(stored.value).record, request.value) ==>
            r.failure == Some(Custom(InvalidData, "Invalid token data")))
      && (!parses ==> r.entries == entries)
  {
  }

  /** Integrity: with an authenticated encryptor, a token validates only if it
      is the encryption of a key that had a live record. */
  lemma ValidatedTokenWasIssued(token: string, request: Request, encryptor: Encryptor, json: JsonCodec,
                                entries: map<string, Entry>, connection: Connection, now: int)
    requires AuthenticOn(encryptor, token)
    requires Validate(Some(token), Some(request), encryptor, json, entries, connection, now).failure.None?
    ensures encryptor.decrypt(token).Decrypted?
    ensures var key := encryptor.decrypt(token).plain;
      encryptor.encrypt(key) == Encrypted(token) && Lookup(entries, key, now).Some?
  {
  }

  /** Single use: once a token has been validated, presenting it again fails
      with INVALID_REDIS_KEY, whatever request comes with it and however soon. */
  lemma ValidateSingleUse(token: string, request1: Request, request2: Request, encryptor: Encryptor, json: JsonCodec,
                          entries: map<string, Entry>, now1: int, now2: int)
    requires Validate(Some(token), Some(request1), encryptor, json, entries, Up, now1).failure.None?
    ensures var after := Validate(Some(token), Some(request1), encryptor, json, entries, Up, now1).entries;
      Validate(Some(token), Some(request2), encryptor, json, after, Up, now2).failure == Some(Custom(InvalidRedisKey, "Invalid redis key"))
  {
    ValidateSucceedsIff(Some(token), Some(request1), encryptor, json, entries, Up, now1);
  }

  class StateTokenValidator {
    const stateToken: Option<string>
    const request: Option<Request>
    const encryptor: Encryptor
    const json: JsonCodec
    const redis: RedisStore
    const status: ServiceState
    /** The collaborator calls of the latest `Call`, in order. */
    ghost var calls: seq<ValidateCall>

    constructor (stateToken: Option<string>, request: Option<Request>, encryptor: Encryptor, json: JsonCodec, redis: RedisStore)
      ensures this.stateToken == stateToken && this.request == request && this.redis == redis
      ensures this.encryptor == encryptor && this.json == json
      ensures fresh(status) && status.reference == REFERENCE && status.valid == None && status.errors == None
      ensures calls == []
    {
      this.stateToken := stateToken;
      this.request := request;
      this.encryptor := encryptor;
      this.json := json;
      this.redis := redis;
      status := new ServiceState(REFERENCE);
      calls := [];
    }

    /** `call`: one run of `Validate` on the store. */
    method Call(now: int)
      modifies this, status, redis`entries
      ensures var r := Validate(stateToken, request, encryptor, json, old(redis.entries), redis.connection, now);
        && redis.entries == r.entries
        && calls == r.calls
        && status.valid == Some(r.failure.None?)
        && status.errors == (if r.failure.Some? then Some(ServiceError(status.reference, r.failure.value.code, r.failure.value.message))
                             else old(status.errors))
    {
      ghost var r := Validate(stateToken, request, encryptor, json, redis.entries, redis.connection, now);
      calls := [];
      var paramsError := ValidateParams(stateToken, request);
      if paramsError.Some? {
        status.Fail(paramsError.value);
        return;
      }
      calls := calls + [DecryptToken(stateToken.value)];
      var decrypted := DecryptStateToken(encryptor, stateToken.value);
      if decrypted.Err? {
        status.Fail(decrypted.error);
        return;
      }
      var key := decrypted.value;
      calls := calls + [GetRecord(key)];
      var stored, down := redis.Get(key, now);
      if down.Some? {
        status.Fail(Custom(UnexpectedError, down.value));
        return;
      }
      if BlankOrNil(stored) {
        status.Fail(Custom(InvalidRedisKey, "Invalid redis key"));
        return;
      }
      var parsed := json.parse(stored.value);
      if parsed.ParseFailed? {
        status.Fail(Custom(JsonParserError, "Failed to parse JSON: " + parsed.message));
        return;
      }
      calls := calls + [DeleteRecord(key)];
      down := redis.Del(key);
      if !Matches(parsed.record, request.value) {
        status.Fail(Custom(InvalidData, "Invalid token data"));
        return;
      }
      status.SetAsValid();
    }
  }
}
