/**
 * The whole sign-in with Google, across the services: the state value
 * issued when the authorization URL is built is accepted once by the
 * callback from the same browser before it expires, and never again.
 *
 * The encryptor and the JSON codec enter as hypotheses on the values
 * actually used: decrypting the issued token gives the key back, and
 * parsing the stored record gives the fingerprint back.
 */
module LoginFlow {
  import opened Wrappers
  import opened Errors
  import opened Text
  import opened Crypto
  import opened Fingerprints
  import opened Store
  import StateTokenIssue
  import StateTokenCheck
  import GoogleAuthUrl
  import UserPayload
  import GoogleCallback

  /** The key a GOOGLE state token is issued under is never blank. */
  lemma IssuedKeyNotBlank(now: nat, hex: string)
    ensures !Blank(StateTokenIssue.BuildKeyName(StateTokenIssue.GOOGLE, now, hex))
  {
    var key := StateTokenIssue.BuildKeyName(StateTokenIssue.GOOGLE, now, hex);
    assert key[0] == 'S';
  }

  /** What validating an issued token sees: the token decrypts to its key,
      whose record is live until the time-to-live runs out and parses back to
      the issuing request's fingerprint. */
  lemma IssuedRecord(request: Request, encryptor: Encryptor, json: JsonCodec, minutes: int,
                     entries: map<string, Entry>, now: nat, hex: string, later: int)
    requires StateTokenIssue.Issue(Some(request), StateTokenIssue.GOOGLE, encryptor, json, minutes, entries, Up, now, hex).failure.None?
    requires Crypto.RoundTripsOn(encryptor, StateTokenIssue.BuildKeyName(StateTokenIssue.GOOGLE, now, hex))
    requires Fingerprints.RoundTripsOn(json, StateTokenIssue.BuildDataFromRequest(request))
    ensures var issued := StateTokenIssue.Issue(Some(request), StateTokenIssue.GOOGLE, encryptor, json, minutes, entries, Up, now, hex);
      var key := StateTokenIssue.BuildKeyName(StateTokenIssue.GOOGLE, now, hex);
      var stored := Lookup(issued.entries, key, later);
      && encryptor.decrypt(issued.token.value) == Decrypted(key) && !Blank(key)
      && (stored.Some? <==> later < now + StateTokenIssue.ExpirationTime(minutes))
      && (stored.Some? ==> !Blank(stored.value))
      && (stored.Some? ==> json.parse(stored.value) == Parsed(StateTokenIssue.BuildDataFromRequest(request)))
  {
    IssuedKeyNotBlank(now, hex);
  }

  /** An issued token, presented before it expires by a request with the
      same user agent and IP, validates and consumes its record; presented
      again, by anyone at any time, it gives INVALID_REDIS_KEY. */
  lemma IssuedTokenValidatesOnce(request: Request, encryptor: Encryptor, json: JsonCodec, minutes: int,
                                 entries: map<string, Entry>, now: nat, hex: string,
                                 callback: Request, later: int, replay: Request, replayedAt: int)
    requires StateTokenIssue.Issue(Some(request), StateTokenIssue.GOOGLE, encryptor, json, minutes, entries, Up, now, hex).failure.None?
    requires !Blank(StateTokenIssue.Issue(Some(request), StateTokenIssue.GOOGLE, encryptor, json, minutes, entries, Up, now, hex).token.value)
    requires Crypto.RoundTripsOn(encryptor, StateTokenIssue.BuildKeyName(StateTokenIssue.GOOGLE, now, hex))
    requires Fingerprints.RoundTripsOn(json, StateTokenIssue.BuildDataFromRequest(request))
    requires Matches(StateTokenIssue.BuildDataFromRequest(request), callback)
    requires later < now + StateTokenIssue.ExpirationTime(minutes)
    ensures var issued := StateTokenIssue.Issue(Some(request), StateTokenIssue.GOOGLE, encryptor, json, minutes, entries, Up, now, hex);
      var key := StateTokenIssue.BuildKeyName(StateTokenIssue.GOOGLE, now, hex);
      var v := StateTokenCheck.Validate(issued.token, Some(callback), encryptor, json, issued.entries, Up, later);
      && v.failure.None? && v.entries == issued.entries - {key}
      && StateTokenCheck.Validate(issued.token, Some(replay), encryptor, json, v.entries, Up, replayedAt).failure
         == Some(Custom(InvalidRedisKey, "Invalid redis key"))
  {
    var issued := StateTokenIssue.Issue(Some(request), StateTokenIssue.GOOGLE, encryptor, json, minutes, entries, Up, now, hex);
    IssuedRecord(request, encryptor, json, minutes, entries, now, hex, later);
    StateTokenCheck.ValidateSucceedsIff(issued.token, Some(callback), encryptor, json, issued.entries, Up, later);
    StateTokenCheck.ValidateSingleUse(issued.token.value, callback, replay, encryptor, json, issued.entries, later, replayedAt);
  }

  /** An issued token presented once its time-to-live has run out gives
      INVALID_REDIS_KEY. */
  lemma IssuedTokenExpires(request: Request, encryptor: Encryptor, json: JsonCodec, minutes: int,
                           entries: map<string, Entry>, now: nat, hex: string, callback: Request, later: int)
    requires StateTokenIssue.Issue(Some(request), StateTokenIssue.GOOGLE, encryptor, json, minutes, entries, Up, now, hex).failure.None?
    requires !Blank(StateTokenIssue.Issue(Some(request), StateTokenIssue.GOOGLE, encryptor, json, minutes, entries, Up, now, hex).token.value)
    requires Crypto.RoundTripsOn(encryptor, StateTokenIssue.BuildKeyName(StateTokenIssue.GOOGLE, now, hex))
    requires Fingerprints.RoundTripsOn(json, StateTokenIssue.BuildDataFromRequest(request))
    requires now + StateTokenIssue.ExpirationTime(minutes) <= later
    ensures var issued := StateTokenIssue.Issue(Some(request), StateTokenIssue.GOOGLE, encryptor, json, minutes, entries, Up, now, hex);
      var v := StateTokenCheck.Validate(issued.token, Some(callback), encryptor, json, issued.entries, Up, later);
      v.failure == Some(Custom(InvalidRedisKey, "Invalid redis key")) && v.entries == issued.entries
  {
    IssuedRecord(request, encryptor, json, minutes, entries, now, hex, later);
  }

  /** An issued token presented from another browser (different user agent
      or IP) gives INVALID_DATA, and its record is consumed all the same. */
  lemma IssuedTokenRejectsOtherBrowser(request: Request, encryptor: Encryptor, json: JsonCodec, minutes: int,
                                       entries: map<string, Entry>, now: nat, hex: string, callback: Request, later: int)
    requires StateTokenIssue.Issue(Some(request), StateTokenIssue.GOOGLE, encryptor, json, minutes, entries, Up, now, hex).failure.None?
    requires !Blank(StateTokenIssue.Issue(Some(request), StateTokenIssue.GOOGLE, encryptor, json, minutes, entries, Up, now, hex).token.value)
    requires Crypto.RoundTripsOn(encryptor, StateTokenIssue.BuildKeyName(StateTokenIssue.GOOGLE, now, hex))
    requires Fingerprints.RoundTripsOn(json, StateTokenIssue.BuildDataFromRequest(request))
    requires !Matches(StateTokenIssue.BuildDataFromRequest(request), callback)
    requires later < now + StateTokenIssue.ExpirationTime(minutes)
    ensures var issued := StateTokenIssue.Issue(Some(request), StateTokenIssue.GOOGLE, encryptor, json, minutes, entries, Up, now, hex);
      var key := StateTokenIssue.BuildKeyName(StateTokenIssue.GOOGLE, now, hex);
      var v := StateTokenCheck.Validate(issued.token, Some(callback), encryptor, json, issued.entries, Up, later);
      v.failure == Some(Custom(InvalidData, "Invalid token data")) && v.entries == issued.entries - {key}
  {
    var issued := StateTokenIssue.Issue(Some(request), StateTokenIssue.GOOGLE, encryptor, json, minutes, entries, Up, now, hex);
    IssuedRecord(request, encryptor, json, minutes, entries, now, hex, later);
    StateTokenCheck.ValidateSucceedsIff(issued.token, Some(callback), encryptor, json, issued.entries, Up, later);
  }

  /** End to end: the browser is sent to the generated URL, Google redirects
      back with a code and the `state` read from that URL, and the callback
      signs the user in with the processor's headers. Replaying the same
      state afterwards fails with INVALID_REDIS_KEY before the code exchange,
      and the user table is left as it was. */
  lemma SignInOnceWithGoogle(request: Request, config: GoogleAuthUrl.GoogleConfig,
                             deps: GoogleCallback.Dependencies, minutes: int,
                             entries: map<string, Entry>, now: nat, hex: string,
                             code: string, callback: Request, later: nat,
                             rows: map<string, UserPayload.User>, validate: UserPayload.User -> Option<string>,
                             draws: UserPayload.SessionDraws,
                             replayCode: string, replay: Request, replayedAt: nat, replayDraws: UserPayload.SessionDraws)
    requires var u := GoogleAuthUrl.GenerateGoogleAuthUrl(Some(request), config, deps.encryptor, deps.json, minutes, entries, Up, now, hex);
      u.failure.None? && !Blank(u.stateToken.value) && '&' !in u.stateToken.value
    requires '?' !in config.baseUrl
    requires Crypto.RoundTripsOn(deps.encryptor, StateTokenIssue.BuildKeyName(StateTokenIssue.GOOGLE, now, hex))
    requires Fingerprints.RoundTripsOn(deps.json, StateTokenIssue.BuildDataFromRequest(request))
    requires Matches(StateTokenIssue.BuildDataFromRequest(request), callback)
    requires later < now + StateTokenIssue.ExpirationTime(minutes)
    requires !Blank(code) && deps.exchange(code).Exchanged?
    requires UserPayload.Process(deps.exchange(code).payload, rows, validate, deps.session, later, draws).failure.None?
    requires !Blank(replayCode)
    ensures var u := GoogleAuthUrl.GenerateGoogleAuthUrl(Some(request), config, deps.encryptor, deps.json, minutes, entries, Up, now, hex);
      var state := GoogleAuthUrl.Param(u.url.value, "state");
      var r := GoogleCallback.HandleGoogleExchange(Some(code), state, Some(callback), deps, u.entries, Up, rows, validate, later, draws);
      var again := GoogleCallback.HandleGoogleExchange(Some(replayCode), state, Some(replay), deps, r.entries, Up, r.rows, validate,
                                                       replayedAt, replayDraws);
      && state == u.stateToken
      && r.failure.None?
      && r.authHeaders == UserPayload.Process(deps.exchange(code).payload, rows, validate, deps.session, later, draws).authHeaders
      && again.failure == Some(Custom(InvalidRedisKey, "Invalid redis key"))
      && again.stages == [GoogleCallback.StateValidation]
      && again.rows == r.rows && again.authHeaders.None?
  {
    var u := GoogleAuthUrl.GenerateGoogleAuthUrl(Some(request), config, deps.encryptor, deps.json, minutes, entries, Up, now, hex);
    GoogleAuthUrl.GenerateGoogleAuthUrlFollowsIssue(Some(request), config, deps.encryptor, deps.json, minutes, entries, Up, now, hex);
    GoogleAuthUrl.StateParamRoundTrip(config, u.stateToken.value);
    var issued := StateTokenIssue.Issue(Some(request), StateTokenIssue.GOOGLE, deps.encryptor, deps.json, minutes, entries, Up, now, hex);
    IssuedTokenValidatesOnce(request, deps.encryptor, deps.json, minutes, entries, now, hex, callback, later, replay, replayedAt);
    var v := StateTokenCheck.Validate(issued.token, Some(callback), deps.encryptor, deps.json, issued.entries, Up, later);
    GoogleCallback.CallbackProcessesExchangedPayload(code, u.stateToken.value, callback, deps, u.entries, Up, rows, validate, later, draws);
    var r := GoogleCallback.HandleGoogleExchange(Some(code), u.stateToken, Some(callback), deps, u.entries, Up, rows, validate, later, draws);
    assert r.entries == v.entries;
    GoogleCallback.CallbackStopsAtStateValidation(replayCode, u.stateToken.value, replay, deps, r.entries, Up, r.rows, validate,
                                                   replayedAt, replayDraws);
  }
}
