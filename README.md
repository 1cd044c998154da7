# HistoryMaster: signing in with Google

This project models, in Dafny, how HistoryMaster signs users in with Google
through OAuth 2.0. The flow has two halves.

**Authorization request.** `Auth::GoogleAuthGenerator` asks
`Auth::StateTokenGenerator` for a `state` value. The generator checks the
request and the provider. It then stores the browser's fingerprint (user
agent and IP) in Redis under a fresh key
`STATE_TOKEN:<provider>:<unix time>:<random hex>`, with a time-to-live.
The `state` value is the encryption of that key. The generator builds
Google's authorization URL around it.

**Callback.** `Auth::Google::Base` runs four stages, stopping at the
first failure:

1. It checks that the code, the state value and the request are present.
2. `Auth::StateTokenValidator` validates the state value. It decrypts the
   key and reads the live record. It parses the record and deletes it, so
   the value is single use. Finally it compares the record with the
   callback's fingerprint.
3. The authorization code is exchanged for Google's identity claims.
4. `Auth::Google::UserPayloadProcessor` finds or creates the user by
   email. In one transaction it adds a Devise token for a new client and
   returns the authentication headers.

Every service follows the `BaseService` convention. `call` sets `valid`
and, on failure, an `errors` record `{reference, code, message}`.

## How the model is built

**Services.** Each service has a pure specification function that
computes one run:

- `StateTokenIssue.Issue`
- `StateTokenCheck.Validate`
- `GoogleAuthUrl.GenerateGoogleAuthUrl`
- `UserPayload.Process`
- `GoogleCallback.HandleGoogleExchange`

Each function returns the error or the result and the new store or user
table. `Issue` and `Validate` also return the collaborator calls the run
made, and `HandleGoogleExchange` the stages it ran. Each service is
also a class whose `Call` method updates its fields and its collaborators
in place: the Redis store and the user table. `Call` is proved to end in
exactly the state its function describes. The lemmas state the service's
promises about that function.

**Shared modules:**

- `Errors`: error codes, `Errors::Custom` and the `errors` record.
- `Text`: Ruby's `blank?`, decimal numerals, and splitting on a separator (equal to Ruby's `split` for a separator other than a space when the last field is not empty).
- `Crypto`: the encryptor.
- `Fingerprints`: the request and the stored record.
- `Store`: Redis `SETEX`/`GET`/`DEL` with expiry times.
- `BaseService`: the validity flag and the errors record.
- `LoginFlow`: cross-service properties. An issued state value is
  accepted once, from the same browser, before it expires, and never
  again. An end-to-end sign-in followed by a replay is rejected.

**Inputs the model takes as parameters:**

- The clock: `now`, in Unix seconds.
- The random draws: `SecureRandom.hex(16)`, the Devise client id, the raw
  token and the friendly token.
- The encryptor (`EncryptorService`) as a pair of functions.
- The JSON codec.
- BCrypt and the Base64 header encoding.
- The token exchanger (`Auth::Google::TokenExchanger`), as the outcome it
  returns for a code.
- The user model's `save!` validations.

Laws assumed of these functions enter as hypotheses on the values
involved:

- decryption inverts encryption (`Crypto.RoundTripsOn`);
- the encryptor is authenticated (`Crypto.AuthenticOn`);
- JSON parsing inverts dumping (`Fingerprints.RoundTripsOn`);
- an issued state token is not blank, and it contains no `&`. The
  `LoginFlow` lemmas take these as hypotheses on the token. The source's
  encryptor (app/services/encryptor_service.rb:18) returns
  `Base64.urlsafe_encode64` of a non-empty encrypted payload. That text is
  never empty, and its alphabet (letters, digits, `-`, `_`, `=`) has no `&`.
  So the token is a single query field.

## Model

| member | source | states |
|---|---|---|
| Store.Lookup | app/services/redis_service.rb:16-18 | GET answers a value iff the key holds a record whose expiry is later than now, and then that record's value |
| Store.Written | app/services/redis_service.rb:20-28 | a successful SETEX with a positive TTL adds or replaces exactly the one key; every other record is unchanged; the value is readable at every time before now + TTL and at none from then on |
| Store.RedisStore.constructor | app/services/redis_service.rb:6-10 | a new store is empty, with the given connection |
| Store.RedisStore.Set | app/services/redis_service.rb:20-28 | fails exactly when the server is down (CannotConnect, with its message) or the TTL is not positive (the server refuses the command, "invalid expire time"); a failure writes nothing; otherwise the store becomes `Written` |
| Store.RedisStore.Get | app/services/redis_service.rb:16-18 | fails exactly when the server is down; otherwise answers `Lookup`; never changes the store |
| Store.RedisStore.Del | app/services/redis_service.rb:30-32 | fails exactly when down and then changes nothing; otherwise removes exactly that key |
| BaseService.ServiceState.constructor | app/services/base_service.rb:2-6 | a service starts with `valid` and `errors` both nil |
| BaseService.ServiceState.SetAsValid | app/services/base_service.rb:14-16 | validity becomes true; errors are untouched |
| BaseService.ServiceState.SetAsInvalid | app/services/base_service.rb:10-12 | validity becomes false; errors are untouched |
| BaseService.ServiceState.SetErrors | app/services/base_service.rb:18-21 | errors become {reference: the service's class name, code, message}; validity is untouched |
| BaseService.ServiceState.Fail | app/services/auth/state_token_generator.rb:38-40 | the rescue branch: invalid, and errors record the raised error's code and message |
| StateTokenIssue.ValidateRequest | app/services/auth/state_token_generator.rb:70-74 | no error iff the request is present and an ActionDispatch::Request; otherwise INVALID_REQUEST_TYPE |
| StateTokenIssue.ValidateProvider | app/services/auth/state_token_generator.rb:80-84 | no error iff the provider is in PROVIDERS (only GOOGLE); otherwise INVALID_PROVIDER |
| StateTokenIssue.BuildDataFromRequest | app/services/auth/state_token_generator.rb:89-94 | the stored record matches the request it was built from (same user agent and IP) |
| StateTokenIssue.BuildKeyName | app/services/auth/state_token_generator.rb:99-101 | every key starts with `STATE_TOKEN:` |
| StateTokenIssue.ExpirationTime | app/services/auth/state_token_generator.rb:8 | the TTL is 60 seconds per configured minute, and it is positive exactly when the configured minutes are |
| StateTokenIssue.Issue | app/services/auth/state_token_generator.rb:48-133 | a token is produced iff there is no error; at most two collaborator calls; the store write comes first and the encryption second; both concern the same key |
| StateTokenIssue.KeyNameFields | app/services/auth/state_token_generator.rb:99-101 | with a non-empty random part, the key splits on ':' (as Ruby's `split` does) into prefix, provider, time and random part, and the time part reads back as the issue time |
| StateTokenIssue.IssuedKeyShape | app/services/auth/state_token_generator.rb:100 | with a 32-digit hex draw, a GOOGLE key has exactly the four fields STATE_TOKEN, GOOGLE, decimal time, hex |
| StateTokenIssue.KeyNameInjective | app/services/auth/state_token_generator.rb:99-101 | keys that are equal come from the same clock reading (decimal renderings are injective) and the same random draw |
| StateTokenIssue.IssueRejectsRequest | app/services/auth/state_token_generator.rb:61-74 | a bad request gives INVALID_REQUEST_TYPE before the provider is checked; the store is not touched |
| StateTokenIssue.IssueRejectsProvider | app/services/auth/state_token_generator.rb:80-84 | an unknown provider gives INVALID_PROVIDER; the store is not touched |
| StateTokenIssue.IssueStoreDown | app/services/auth/state_token_generator.rb:108-118 | an unreachable store gives REDIS_CONNECTION_ERROR with "Redis connection error: " and the message; nothing is stored and nothing is encrypted |
| StateTokenIssue.IssueRejectsExpiry | app/services/auth/state_token_generator.rb:8 | a configured expiration that is not positive (unset or non-numeric gives 0) makes the server refuse the SETEX: the run fails with UNEXPECTED_ERROR and the server's reply; nothing is stored and nothing is encrypted |
| StateTokenIssue.IssueEncryptRejected | app/services/auth/state_token_generator.rb:125-133 | a failed encryption gives INVALID_ENCRYPTED_PAYLOAD and no token, but the record stays written |
| StateTokenIssue.IssueSucceedsIff | app/services/auth/state_token_generator.rb:48-133 | success iff the request and provider pass, the store is up, the configured expiration is positive and the key encrypts; then the token is the key's encryption and the store holds the fingerprint's JSON under the key, expiring EXPIRATION_TIME after now; every other record is unchanged |
| StateTokenIssue.StateTokenGenerator.constructor | app/services/auth/state_token_generator.rb:22-28 | the state token starts nil, as do validity and errors |
| StateTokenIssue.StateTokenGenerator.Call | app/services/auth/state_token_generator.rb:34-41 | the store, token, validity and errors end exactly as `Issue` says; errors name Auth::StateTokenGenerator |
| StateTokenCheck.ValidateParams | app/services/auth/state_token_validator.rb:34-38 | no error iff the token is not blank and the request is present; otherwise EMPTY_PARAMS |
| StateTokenCheck.DecryptStateToken | app/services/auth/state_token_validator.rb:40-51 | a key iff the token decrypts to a non-blank key, and then that key; a rejected token gives INVALID_ENCRYPTED_PAYLOAD; a token that is not Base64 gives UNEXPECTED_ERROR with the decoder's message |
| Fingerprints.Matches | app/services/auth/state_token_validator.rb:69-73 | a stored record passes `validate_data` exactly when it is the request's own {user agent, IP} record |
| StateTokenCheck.Validate | app/services/auth/state_token_validator.rb:25-73 | the store either stays the same or loses exactly one existing record |
| StateTokenCheck.ValidateRejectsEmptyParams | app/services/auth/state_token_validator.rb:34-38 | missing parameters give EMPTY_PARAMS with no calls and no store change |
| StateTokenCheck.ValidateRejectsUndecryptable | app/services/auth/state_token_validator.rb:40-51 | a rejected token gives INVALID_ENCRYPTED_PAYLOAD and a blank key gives INVALID_STATE_TOKEN; the only call is the decryption |
| StateTokenCheck.ValidateRejectsUnknownKey | app/services/auth/state_token_validator.rb:53-58 | a key with no live record gives INVALID_REDIS_KEY and leaves the store unchanged |
| StateTokenCheck.ValidateKeepsUnparsableRecord | app/services/auth/state_token_validator.rb:60-66 | a record that does not parse gives JSON_PARSER_ERROR and is not deleted |
| StateTokenCheck.ValidateSucceedsIff | app/services/auth/state_token_validator.rb:25-73 | success iff the live record parses and matches the request's user agent and IP; a parsed record is deleted (the last call) whether it matches or not; a mismatch gives INVALID_DATA; otherwise the store is unchanged |
| StateTokenCheck.ValidatedTokenWasIssued | app/services/auth/state_token_validator.rb:40-58 | with an authenticated encryptor, an accepted token is the encryption of a key that had a live record |
| StateTokenCheck.ValidateSingleUse | app/services/auth/state_token_validator.rb:53-62 | after a successful validation, the same token gives INVALID_REDIS_KEY for any request at any time |
| StateTokenCheck.StateTokenValidator.constructor | app/services/auth/state_token_validator.rb:7-12 | keeps the token and request; validity and errors start nil |
| StateTokenCheck.StateTokenValidator.Call | app/services/auth/state_token_validator.rb:14-21 | the store, validity and errors end exactly as `Validate` says; errors name Auth::StateTokenValidator |
| GoogleAuthUrl.ClientParams | app/services/auth/google_auth_generator.rb:70 | the parameters after the state open with `&` and end with `&response_type=code&scope=email profile` |
| GoogleAuthUrl.ClientParamsJoined | app/services/auth/google_auth_generator.rb:70 | the parameters after the state are `&` followed by the client fields (`client_id=<GOOGLE_CLIENT_ID>`, `redirect_uri=<GOOGLE_REDIRECT_URL>`, `response_type=code`, `scope=email profile`) joined by `&` |
| GoogleAuthUrl.GenerateUrl | app/services/auth/google_auth_generator.rb:69-71 | the URL is the base URL, then `?state=` and the token, and ends with `&response_type=code&scope=email profile` |
| GoogleAuthUrl.GenerateUrlInjective | app/services/auth/google_auth_generator.rb:70 | different state tokens give different URLs |
| GoogleAuthUrl.GenerateUrlFields | app/services/auth/google_auth_generator.rb:69-71 | the query after the first `?` splits on `&` into exactly `state=<token>`, `client_id=<GOOGLE_CLIENT_ID>`, `redirect_uri=<GOOGLE_REDIRECT_URL>`, `response_type=code`, `scope=email profile` (base URL without `?`; token, client id and redirect URL without `&`) |
| GoogleAuthUrl.GenerateUrlParams | app/services/auth/google_auth_generator.rb:69-71 | every query parameter read back by name: `state` is the token, `client_id` the configured client id, `redirect_uri` the configured redirect URL, `response_type` is `code`, `scope` is `email profile`; any other name is absent |
| GoogleAuthUrl.StateParamRoundTrip | app/services/auth/google_auth_generator.rb:70 | reading the `state` query parameter of the URL gives the token back (base URL without '?', token without '&') |
| GoogleAuthUrl.GenerateGoogleAuthUrl | app/services/auth/google_auth_generator.rb:45-48 | a URL iff no error, and then it is `GenerateUrl` of the issued state token |
| GoogleAuthUrl.GenerateGoogleAuthUrlFollowsIssue | app/services/auth/google_auth_generator.rb:55-64 | the state token comes from a GOOGLE `Issue` run; the store ends as that run leaves it; that run's error is the generator's error |
| GoogleAuthUrl.GoogleAuthGenerator.constructor | app/services/auth/google_auth_generator.rb:19-24 | the state token and URL start nil |
| GoogleAuthUrl.GoogleAuthGenerator.Call | app/services/auth/google_auth_generator.rb:31-38 | the store, state token, URL, validity and errors end as `GenerateGoogleAuthUrl` says; errors carry the inner service's code and message under Auth::GoogleAuthGenerator |
| UserPayload.FindByEmail | app/services/auth/google/user_payload_processor.rb:33 | a user iff one is stored under the email, and then that user |
| UserPayload.NewUser | app/services/auth/google/user_payload_processor.rb:38-51 | the new user's email and uid are the payload email; provider google; confirmed now; no tokens; the password is a prefix of the friendly token, at most 20 characters |
| UserPayload.WithToken | app/services/auth/google/user_payload_processor.rb:60-63 | the token map gains or replaces exactly the client's entry; everything else about the user is unchanged |
| UserPayload.Process | app/services/auth/google/user_payload_processor.rb:25-30 | headers iff no error; on error the table is unchanged |
| UserPayload.ProcessReusesExistingUser | app/services/auth/google/user_payload_processor.rb:32-36 | an existing user is reused: no user is added, and only its token map changes |
| UserPayload.ProcessCreatesUser | app/services/auth/google/user_payload_processor.rb:38-51 | with no user under the email, exactly one user is added, with the attributes of `handle_user_creation` |
| UserPayload.ProcessWritesOneToken | app/services/auth/google/user_payload_processor.rb:53-65 | the token map gains the new client's entry {BCrypt hash of the raw token, now + token_lifespan}; other clients and other users are unchanged |
| UserPayload.BuildAuthHeaders | app/services/auth/google/user_payload_processor.rb:67-79 | access-token is the raw token, token-type Bearer, client the client id, uid the user's uid, expiry a decimal numeral that reads back as the expiry; authorization is "Bearer " plus the encoding of the five |
| UserPayload.SaveFailed | app/services/auth/google/user_payload_processor.rb:17-20 | a failed `save!` is recorded as UNEXPECTED_ERROR with "Validation failed: " followed by the validation message, which reads back unchanged after that prefix |
| UserPayload.ProcessHeaders | app/services/auth/google/user_payload_processor.rb:67-79 | the headers carry the raw token, Bearer, the client id, the uid and the expiry as a decimal that reads back as the stored expiry; authorization is "Bearer " plus the encoded headers |
| UserPayload.ProcessAtomic | app/services/auth/google/user_payload_processor.rb:26-29 | the run fails iff one of its `save!` calls fails, and then the table is unchanged and there are no headers |
| UserPayload.ProcessKeepsWellKeyed | app/services/auth/google/user_payload_processor.rb:33-35 | every user stays stored under its own email |
| UserPayload.UserTable.Save | app/services/auth/google/user_payload_processor.rb:48 | `save!` stores the user under its email iff the validations pass, and otherwise changes nothing |
| UserPayload.UserTable.Rollback | app/services/auth/google/user_payload_processor.rb:26 | the transaction's rollback restores the table to the snapshot |
| UserPayload.UserPayloadProcessor.constructor | app/services/auth/google/user_payload_processor.rb:9-12 | the auth headers start nil |
| UserPayload.UserPayloadProcessor.FindOrCreateUser | app/services/auth/google/user_payload_processor.rb:32-51 | returns the stored user, or the new user once it has been saved, or the save failure |
| UserPayload.UserPayloadProcessor.GenerateDeviseToken | app/services/auth/google/user_payload_processor.rb:53-80 | saves the user with the new token entry and returns the headers, or the save failure |
| UserPayload.UserPayloadProcessor.Call | app/services/auth/google/user_payload_processor.rb:14-21 | the table, headers, validity and errors end as `Process` says, with rollback on failure |
| GoogleCallback.ValidateParams | app/services/auth/google/base.rb:38-42 | no error iff code and state token are not blank and the request is present; otherwise EMPTY_PARAMS |
| GoogleCallback.HandleGoogleExchange | app/services/auth/google/base.rb:31-36 | headers iff no error; the stages run are a prefix of validation, exchange, processing, in that order; a success ran all three |
| GoogleCallback.CallbackRejectsMissingParams | app/services/auth/google/base.rb:38-42 | missing parameters give EMPTY_PARAMS before any stage runs; store and users are unchanged |
| GoogleCallback.CallbackStopsAtStateValidation | app/services/auth/google/base.rb:44-51 | an invalid state value stops the run with the validator's error; the code is never exchanged and users are unchanged |
| GoogleCallback.CallbackStopsAtExchange | app/services/auth/google/base.rb:53-62 | a failed exchange stops the run with the exchanger's error; the processor never runs |
| GoogleCallback.CallbackProcessesExchangedPayload | app/services/auth/google/base.rb:64-73 | the processor receives exactly the exchanged claims; the outcome, user table and headers are the processor's |
| GoogleCallback.CallbackSucceedsIff | app/services/auth/google/base.rb:31-36 | success iff parameters are present, the state validates, the code is exchanged and the processor succeeds |
| GoogleCallback.CallbackFailureKeepsUsers | app/services/auth/google/base.rb:20-36 | a failure at any stage leaves the user table unchanged |
| GoogleCallback.Base.constructor | app/services/auth/google/base.rb:9-18 | the payload and headers start nil |
| GoogleCallback.Base.Call | app/services/auth/google/base.rb:20-27 | store, users, stages, payload, headers, validity and errors end as `HandleGoogleExchange` says; errors carry the failing stage's code and message under Auth::Google::Base |
| GoogleCallback.Base.ValidateStateToken | app/services/auth/google/base.rb:44-51 | runs the validator; its error and store effect are `Validate`'s |
| GoogleCallback.Base.HandleGooglePayload | app/services/auth/google/base.rb:64-73 | runs the processor; its error, table and headers are `Process`'s |
| LoginFlow.IssuedKeyNotBlank | app/services/auth/state_token_validator.rb:43 | an issued key is never blank, so it never triggers INVALID_STATE_TOKEN |
| LoginFlow.IssuedRecord | app/services/auth/state_token_generator.rb:108-118 | an issued token decrypts to its key; the key's record is live exactly until the TTL runs out, and parses back to the issuing request's fingerprint |
| LoginFlow.IssuedTokenValidatesOnce | app/services/auth/state_token_validator.rb:53-73 | an issued token, presented before expiry from the same browser, validates and consumes its record; a second presentation gives INVALID_REDIS_KEY |
| LoginFlow.IssuedTokenExpires | app/services/auth/state_token_generator.rb:108-111 | once the TTL has run out, the token gives INVALID_REDIS_KEY |
| LoginFlow.IssuedTokenRejectsOtherBrowser | app/services/auth/state_token_validator.rb:69-73 | from another user agent or IP the token gives INVALID_DATA, and the record is consumed all the same |
| LoginFlow.SignInOnceWithGoogle | app/services/auth/google/base.rb:31-36 | the `state` read from the generated URL signs the user in with the processor's headers; a replay fails with INVALID_REDIS_KEY before the code exchange and leaves users unchanged |

## Left out

- The encryptor (`EncryptorService`, ActiveSupport::MessageEncryptor with AES-GCM and Base64) is a pair of functions. Its nonce randomness is not modelled, and neither are the cryptographic laws except as per-value hypotheses.
- `RedisService`'s connection pool, the Redis protocol and any failure other than "cannot connect" or a refused SETEX are not modelled.
- The validator reads and deletes the record in two separate commands. Concurrent callbacks racing between them are not modelled: runs are sequential.
- `Auth::Google::TokenExchanger` is not part of this model. It makes the HTTP request to Google and decodes the JWT, and here it is the outcome it returns for a code.
- Controllers, routes and initializers are left out; they only wire the services.
- JSON is a codec on the two-field fingerprint record. Other JSON values, and records with extra or non-string fields, are not modelled.
- Ruby's `blank?` is modelled for ASCII whitespace only. Unicode whitespace is not.
- A Google payload without an email claim is not modelled.
- ActiveRecord's other validations, and database errors other than a failed `save!`, are not modelled.
- The Rails logger line in `set_errors` is left out.
- StateTokenCheck.StateTokenValidator.Call: the source calls `set_errors` with one argument, the message `"code: <code>: <text>"`, while `set_errors` takes two. Here the errors record carries the named code and the text after it, as intended.
- StateTokenCheck.StateTokenValidator.Call: whether the store can be reached is fixed for the length of a run, so a DEL that fails after a successful GET is not modelled. A store that cannot be reached gives UNEXPECTED_ERROR with the server's message. In the source, the connection error's message is all that the rescue clause records.
- GoogleCallback.Base.Call: the source also calls `set_errors` with one argument, and it re-raises a stage's failure as `StandardError.new(service.errors)`. Here the errors record carries the failing stage's code and message under Auth::Google::Base.
- UserPayload.UserPayloadProcessor.Call: the same one-argument `set_errors`. A failed `save!` is recorded as UNEXPECTED_ERROR with "Validation failed: " and the validation message.
- GoogleAuthUrl.GoogleAuthGenerator.Call: the source raises the inner service's `errors` hash and reads `e.code` from it. Here the generator records the inner code and message, as intended.
- StateTokenIssue.Issue: the codes INVALID_REQUEST_TYPE, INVALID_PROVIDER and INVALID_ENCRYPTED_PAYLOAD are defined in `Auth::ErrorCodes`, which is not part of this model, so their string values are not modelled; the codes are distinct constants here.
- StateTokenCheck.Validate: the validator also names `Errors::GlobalCodes` INVALID_STATE_TOKEN, INVALID_ENCRYPTED_PAYLOAD, INVALID_REDIS_KEY, JSON_PARSER_ERROR and INVALID_DATA, which `Errors::GlobalCodes` does not define (it has only UNEXPECTED_ERROR, EMPTY_PARAMS and REDIS_CONNECTION_ERROR). They are modelled as the distinct codes the messages name.
- StateTokenIssue.StateTokenGenerator.Call: a SETEX the server refuses raises Redis::CommandError, which `persist_data_in_redis` does not rescue. The rescue of `call` then reads `e.code`, which that exception does not have. Here the run records UNEXPECTED_ERROR with the server's reply, as intended.
- StateTokenIssue.ValidateProvider: the provider is a string compared with "GOOGLE", while the source compares Symbols with `:GOOGLE`, so the String "GOOGLE" passes here and fails there. Every caller passes the Symbol.
- StateTokenCheck.DecryptStateToken: a token that is not URL-safe Base64 makes `urlsafe_decode64` raise ArgumentError, which the rescue of `decrypt_state_token` does not catch; it reaches `call`'s generic rescue and is recorded as UNEXPECTED_ERROR with the decoder's message, not INVALID_ENCRYPTED_PAYLOAD.
- UserPayload.UserTable.Save: the User model's callbacks from devise_token_auth (the `before_save` that destroys expired tokens, and the cap on the number of tokens kept) are not modelled; `save!` writes the user exactly as given.
- UserPayload.ProcessWritesOneToken: because those callbacks are left out, "every other client entry is unchanged" holds of the model; the application's `save!` may also drop expired or surplus client entries.
- GoogleAuthUrl.GenerateUrlParams: parameters are read back as written, without percent-decoding; `URI.decode_www_form` would also decode `+` and `%XX`. `generate_url` does not escape the configured client id or redirect URL, so the lemma holds for values without `&`; a value with `&` would break the query in the source as well.
- The validator's `with_indifferent_access` and symbol/string key handling reduce to comparing the two fields.
