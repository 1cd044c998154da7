/**
 * Auth::Google::Base: the OAuth 2.0 callback. A linear pipeline that checks
 * its parameters, validates the `state` value, exchanges the authorization
 * code for Google's identity claims, and issues the application session.
 * The first stage that fails stops the run, and its error becomes the
 * service's error.
 *
 * The state validator and the payload processor are the modelled services;
 * the token exchanger (an HTTP client) is injected as the outcome it returns
 * for a code.
 */
module GoogleCallback {
  import opened Wrappers
  import opened Errors
  import opened Text
  import opened Crypto
  import opened Fingerprints
  import opened Store
  import opened BaseService
  import StateTokenCheck
  import UserPayload

  const REFERENCE := "Auth::Google::Base"

  /** What Auth::Google::TokenExchanger leaves behind: the decoded claims, or
      its error. */
  datatype ExchangeOutcome = Exchanged(payload: UserPayload.GooglePayload) | ExchangeFailed(error: Custom)

  /** The services the pipeline runs, in the order it runs them. */
  datatype Stage = StateValidation | CodeExchange(code: string) | PayloadProcessing(payload: UserPayload.GooglePayload) {
    function Position(): nat {
      match this
      case StateValidation => 0
      case CodeExchange(_) => 1
      case PayloadProcessing(_) => 2
    }
  }

  /** The injected `dependencies`, with what they in turn are built with. */
  datatype Dependencies = Dependencies(encryptor: Encryptor, json: JsonCodec,
                                       exchange: string -> ExchangeOutcome, session: UserPayload.Session)

  /** A run: the error if it failed, the claims and headers it obtained, the
      store and user table afterwards, and the stages it ran. */
  datatype Handled = Handled(failure: Option<Custom>, googlePayload: Option<UserPayload.GooglePayload>,
                             authHeaders: Option<UserPayload.AuthHeaders>, entries: map<string, Entry>,
                             rows: map<string, UserPayload.User>, stages: seq<Stage>)

  /** `validate_params`: code, state token and request must all be present. */
  function ValidateParams(code: Option<string>, stateToken: Option<string>, request: Option<Request>): (e: Option<Custom>)
    ensures e.None? <==> !BlankOrNil(code) && !BlankOrNil(stateToken) && request.Some?
    ensures e.Some? ==> e.value.code == EmptyParams
  {
    if BlankOrNil(code) || BlankOrNil(stateToken) || request.None? then Some(Custom(EmptyParams, "Some parameters are missing"))
    else None
  }

  /** `handle_google_exchange`. */
  function HandleGoogleExchange(code: Option<string>, stateToken: Option<string>, request: Option<Request>,
                                deps: Dependencies, entries: map<string, Entry>, connection: Connection,
                                rows: map<string, UserPayload.User>, validate: UserPayload.User -> Option<string>,
                                now: nat, draws: UserPayload.SessionDraws): (r: Handled)
    ensures r.authHeaders.Some? <==> r.failure.None?
    // stages run in pipeline order, each only after all earlier ones
    ensures |r.stages| <= 3 && forall i :: 0 <= i < |r.stages| ==> r.stages[i].Position() == i
    // a stage that ran is the last one unless it succeeded
    ensures r.failure.None? ==> |r.stages| == 3
  {
    var paramsError := ValidateParams(code, stateToken, request);
    if paramsError.Some? then Handled(paramsError, None, None, entries, rows, [])
    else
      var v := StateTokenCheck.Validate(stateToken, request, deps.encryptor, deps.json, entries, connection, now);
      if v.failure.Some? then Handled(v.failure, None, None, v.entries, rows, [StateValidation])
      else
        match deps.exchange(code.value)
        case ExchangeFailed(e) =>
          Handled(Some(e), None, None, v.entries, rows, [StateValidation, CodeExchange(code.value)])
        case Exchanged(payload) =>
          var p := UserPayload.Process(payload, rows, validate, deps.session, now, draws);
          Handled(p.failure, Some(payload), p.authHeaders, v.entries, p.rows,
                  [StateValidation, CodeExchange(code.value), PayloadProcessing(payload)])
  }

  /** Missing code, state token or request gives EMPTY_PARAMS before any
      stage runs: the store and the user table are untouched. */
  lemma CallbackRejectsMissingParams(code: Option<string>, stateToken: Option<string>, request: Option<Request>,
                                     deps: Dependencies, entries: map<string, Entry>, connection: Connection,
                                     rows: map<string, UserPayload.User>, validate: UserPayload.User -> Option<string>,
                                     now: nat, draws: UserPayload.SessionDraws)
    requires BlankOrNil(code) || BlankOrNil(stateToken) || request.None?
    ensures var r := HandleGoogleExchange(code, stateToken, request, deps, entries, connection, rows, validate, now, draws);
      && r.failure == Some(Custom(EmptyParams, "Some parameters are missing"))
      && r.stages == [] && r.entries == entries && r.rows == rows
  {
  }

  /** A state value that does not validate stops the run with the
      validator's error: the code is never sent to Google and no user is
      created or signed in. */
  lemma CallbackStopsAtStateValidation(code: string, stateToken: string, request: Request,
                                       deps: Dependencies, entries: map<string, Entry>, connection: Connection,
                                       rows: map<string, UserPayload.User>, validate: UserPayload.User -> Option<string>,
                                       now: nat, draws: UserPayload.SessionDraws)
    requires !Blank(code) && !Blank(stateToken)
    requires StateTokenCheck.Validate(Some(stateToken), Some(request), deps.encryptor, deps.json, entries, connection, now).failure.Some?
    ensures var v := StateTokenCheck.Validate(Some(stateToken), Some(request), deps.encryptor, deps.json, entries, connection, now);
      var r := HandleGoogleExchange(Some(code), Some(stateToken), Some(request), deps, entries, connection, rows, validate, now, draws);
      && r.failure == v.failure && r.stages == [StateValidation]
      && r.googlePayload.None? && r.authHeaders.None?
      && r.entries == v.entries && r.rows == rows
  {
  }

  /** A code Google does not exchange stops the run with the exchanger's
      error, after the state value has been consumed; the user table is
      untouched. */
  lemma CallbackStopsAtExchange(code: string, stateToken: string, request: Request,
                                deps: Dependencies, entries: map<string, Entry>, connection: Connection,
                                rows: map<string, UserPayload.User>, validate: UserPayload.User -> Option<string>,
                                now: nat, draws: UserPayload.SessionDraws)
    requires !Blank(code)
    requires StateTokenCheck.Validate(Some(stateToken), Some(request), deps.encryptor, deps.json, entries, connection, now).failure.None?
    requires deps.exchange(code).ExchangeFailed?
    ensures var v := StateTokenCheck.Validate(Some(stateToken), Some(request), deps.encryptor, deps.json, entries, connection, now);
      var r := HandleGoogleExchange(Some(code), Some(stateToken), Some(request), deps, entries, connection, rows, validate, now, draws);
      && r.failure == Some(deps.exchange(code).error) && r.stages == [StateValidation, CodeExchange(code)]
      && r.googlePayload.None? && r.authHeaders.None?
      && r.entries == v.entries && r.rows == rows
  {
  }

  /** Once the code is exchanged, the processor receives exactly the claims
      Google returned, and the run's outcome, user table and headers are the
      processor's. */
  lemma CallbackProcessesExchangedPayload(code: string, stateToken: string, request: Request,
                                          deps: Dependencies, entries: map<string, Entry>, connection: Connection,
                                          rows: map<string, UserPayload.User>, validate: UserPayload.User -> Option<string>,
                                          now: nat, draws: UserPayload.SessionDraws)
    requires !Blank(code)
    requires StateTokenCheck.Validate(Some(stateToken), Some(request), deps.encryptor, deps.json, entries, connection, now).failure.None?
    requires deps.exchange(code).Exchanged?
    ensures var payload := deps.exchange(code).payload;
      var p := UserPayload.Process(payload, rows, validate, deps.session, now, draws);
      var r := HandleGoogleExchange(Some(code), Some(stateToken), Some(request), deps, entries, connection, rows, validate, now, draws);
      && r.stages == [StateValidation, CodeExchange(code), PayloadProcessing(payload)]
      && r.googlePayload == Some(payload)
      && r.failure == p.failure && r.rows == p.rows && r.authHeaders == p.authHeaders
  {
  }

  /** A sign-in succeeds exactly when every stage does: the parameters are
      present, the state value validates, the code is exchanged and the
      session is issued. */
  lemma CallbackSucceedsIff(code: Option<string>, stateToken: Option<string>, request: Option<Request>,
                            deps: Dependencies, entries: map<string, Entry>, connection: Connection,
                            rows: map<string, UserPayload.User>, validate: UserPayload.User -> Option<string>,
                            now: nat, draws: UserPayload.SessionDraws)
    ensures var r := HandleGoogleExchange(code, stateToken, request, deps, entries, connection, rows, validate, now, draws);
      var stateOk := StateTokenCheck.Validate(stateToken, request, deps.encryptor, deps.json, entries, connection, now).failure.None?;
      var exchanged := if code.Some? then deps.exchange(code.value) else ExchangeFailed(Custom(EmptyParams, ""));
      (r.failure.None? <==>
        && !BlankOrNil(code) && !BlankOrNil(stateToken) && request.Some?
        && stateOk && exchanged.Exchanged?
        && UserPayload.Process(exchanged.payload, rows, validate, deps.session, now, draws).failure.None?)
  {
  }

  /** A failed sign-in, whichever stage failed, leaves the user table as it
      was. */
  lemma CallbackFailureKeepsUsers(code: Option<string>, stateToken: Option<string>, request: Option<Request>,
                                  deps: Dependencies, entries: map<string, Entry>, connection: Connection,
                                  rows: map<string, UserPayload.User>, validate: UserPayload.User -> Option<string>,
                                  now: nat, draws: UserPayload.SessionDraws)
    requires HandleGoogleExchange(code, stateToken, request, deps, entries, connection, rows, validate, now, draws).failure.Some?
    ensures HandleGoogleExchange(code, stateToken, request, deps, entries, connection, rows, validate, now, draws).rows == rows
  {
  }

  class Base {
    const code: Option<string>
    const stateToken: Option<string>
    const request: Option<Request>
    const dependencies: Dependencies
    const redis: RedisStore
    const users: UserPayload.UserTable
    const status: ServiceState
    var googlePayload: Option<UserPayload.GooglePayload>
    var authHeaders: Option<UserPayload.AuthHeaders>
    /** The stages the latest `Call` ran, in order. */
    ghost var stages: seq<Stage>

    constructor (code: Option<string>, stateToken: Option<string>, request: Option<Request>, dependencies: Dependencies,
                 redis: RedisStore, users: UserPayload.UserTable)
      ensures this.code == code && this.stateToken == stateToken && this.request == request
      ensures this.dependencies == dependencies && this.redis == redis && this.users == users
      ensures fresh(status) && status.reference == REFERENCE && status.valid == None && status.errors == None
      ensures googlePayload == None && authHeaders == None && stages == []
    {
      this.code := code;
      this.stateToken := stateToken;
      this.request := request;
      this.dependencies := dependencies;
      this.redis := redis;
      this.users := users;
      status := new ServiceState(REFERENCE);
      googlePayload := None;
      authHeaders := None;
      stages := [];
    }

    /** `call`: one run of `HandleGoogleExchange`; on failure the errors carry
        the failing stage's code and message. */
    method Call(now: nat, draws: UserPayload.SessionDraws)
      modifies this, status, redis`entries, users`rows
      ensures var r := HandleGoogleExchange(code, stateToken, request, dependencies, old(redis.entries), redis.connection,
                                            old(users.rows), users.validate, now, draws);
        && redis.entries == r.entries
        && users.rows == r.rows
        && stages == r.stages
        && googlePayload == (if r.googlePayload.Some? then r.googlePayload else old(googlePayload))
        && authHeaders == (if r.authHeaders.Some? then r.authHeaders else old(authHeaders))
        && status.valid == Some(r.failure.None?)
        && status.errors == (if r.failure.Some? then Some(ServiceError(status.reference, r.failure.value.code, r.failure.value.message))
                             else old(status.errors))
    {
      ghost var r := HandleGoogleExchange(code, stateToken, request, dependencies, redis.entries, redis.connection,
                                          users.rows, users.validate, now, draws);
      ghost var rows := users.rows;
      stages := [];
      var paramsError := ValidateParams(code, stateToken, request);
      if paramsError.Some? {
        assert r.failure == paramsError && r.stages == [] && r.rows == rows;
        status.Fail(paramsError.value);
        return;
      }

      stages := stages + [StateValidation];
      var stateError := ValidateStateToken(now);
      if stateError.Some? {
        assert r.failure == stateError && r.stages == stages && r.entries == redis.entries && r.rows == rows;
        status.Fail(stateError.value);
        return;
      }

      stages := stages + [CodeExchange(code.value)];
      var exchanged := dependencies.exchange(code.value);
      if exchanged.ExchangeFailed? {
        assert r.failure == Some(exchanged.error) && r.stages == stages && r.entries == redis.entries && r.rows == rows;
        status.Fail(exchanged.error);
        return;
      }
      googlePayload := Some(exchanged.payload);

      stages := stages + [PayloadProcessing(exchanged.payload)];
      var headers, payloadError := HandleGooglePayload(exchanged.payload, now, draws);
      assert r.failure == payloadError && r.stages == stages && r.entries == redis.entries && r.rows == users.rows;
      if payloadError.Some? {
        status.Fail(payloadError.value);
        return;
      }
      assert r.authHeaders == Some(headers);
      authHeaders := Some(headers);
      status.SetAsValid();
    }

    /** `validate_state_token`: runs Auth::StateTokenValidator on this
        callback's state token and request, and reports its error. */
    method ValidateStateToken(now: nat) returns (failure: Option<Custom>)
      modifies redis`entries
      ensures var v := StateTokenCheck.Validate(stateToken, request, dependencies.encryptor, dependencies.json,
                                                old(redis.entries), redis.connection, now);
        failure == v.failure && redis.entries == v.entries
    {
      var validator := new StateTokenCheck.StateTokenValidator(stateToken, request, dependencies.encryptor, dependencies.json, redis);
      validator.Call(now);
      if validator.status.valid == Some(true) {
        failure := None;
      } else {
        var inner := validator.status.errors.value;
        failure := Some(Custom(inner.code, inner.message));
      }
    }

    /** `handle_google_payload`: runs Auth::Google::UserPayloadProcessor on
        the exchanged claims, and reports its headers or its error. */
    method HandleGooglePayload(payload: UserPayload.GooglePayload, now: nat, draws: UserPayload.SessionDraws)
      returns (headers: UserPayload.AuthHeaders, failure: Option<Custom>)
      modifies users`rows
      ensures var p := UserPayload.Process(payload, old(users.rows), users.validate, dependencies.session, now, draws);
        users.rows == p.rows && failure == p.failure && (failure.None? ==> p.authHeaders == Some(headers))
    {
      var processor := new UserPayload.UserPayloadProcessor(payload, users, dependencies.session);
      processor.Call(now, draws);
      if processor.status.valid == Some(true) {
        headers := processor.authHeaders.value;
        failure := None;
      } else {
        headers := UserPayload.AuthHeaders(UserPayload.AuthData("", "", "", "", ""), "");
        var inner := processor.status.errors.value;
        failure := Some(Custom(inner.code, inner.message));
      }
    }
  }
}
