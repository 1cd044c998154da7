/**
 * Auth::Google::UserPayloadProcessor: turns the identity claims from Google
 * into an application session. Inside one transaction it finds the user by
 * email or creates one, stores the hash of a fresh access token under a fresh
 * client id in the user's token map, and builds the credential headers. If a
 * save fails, the transaction rolls back and no session is issued.
 *
 * The user table is a map keyed by email; its validations (what makes `save!`
 * raise) are injected, as are BCrypt, the Base64 JSON encoding of the headers
 * and the token lifespan. Randomness and the clock are parameters.
 */
module UserPayload {
  import opened Wrappers
  import opened Errors
  import opened Text
  import opened BaseService

  const REFERENCE := "Auth::Google::UserPayloadProcessor"
  const PROVIDER := "google"
  const TOKEN_TYPE := "Bearer"
  /** `Devise.friendly_token[0, 20]`: the password keeps at most 20 characters. */
  const PASSWORD_LENGTH: nat := 20

  /** The claims the processor reads from the decoded ID token. */
  datatype GooglePayload = GooglePayload(email: string)

  datatype TokenRecord = TokenRecord(token: string, expiry: nat)

  datatype User = User(email: string, uid: string, provider: string, password: string,
                       confirmedAt: Option<nat>, tokens: map<string, TokenRecord>)

  /** The random values of one run: the client id and the raw access token
      (SecureRandom.urlsafe_base64) and the friendly token used as password. */
  datatype SessionDraws = SessionDraws(clientId: string, rawToken: string, friendlyToken: string)

  /** The five credential headers, in order. */
  datatype AuthData = AuthData(accessToken: string, tokenType: string, client: string, expiry: string, uid: string)

  /** The five headers and `authorization`. */
  datatype AuthHeaders = AuthHeaders(data: AuthData, authorization: string)

  /** BCrypt::Password.create, Base64.strict_encode64 of the headers' JSON,
      and DeviseTokenAuth.token_lifespan in seconds. */
  datatype Session = Session(hashToken: string -> string, encodeAuth: AuthData -> string, tokenLifespan: nat)

  /** A run: the error if it failed, the user table afterwards and the headers. */
  datatype Processed = Processed(failure: Option<Custom>, rows: map<string, User>, authHeaders: Option<AuthHeaders>)

  /** Every user is stored under its own email. */
  ghost predicate WellKeyed(rows: map<string, User>) {
    forall e :: e in rows ==> rows[e].email == e
  }

  /** `User.find_by(email:)`. */
  function FindByEmail(rows: map<string, User>, email: string): (u: Option<User>)
    ensures u.Some? <==> email in rows
    ensures u.Some? ==> u.value == rows[email]
  {
    if email in rows then Some(rows[email]) else None
  }

  /** The message prefix of ActiveRecord::RecordInvalid. */
  const VALIDATION_FAILED := "Validation failed: "

  /** The error recorded when `save!` raises ActiveRecord::RecordInvalid: the
      generic code, and a message from which the validation message can be
      read back after the fixed prefix. */
  function SaveFailed(message: string): (c: Custom)
    ensures c.code == UnexpectedError
    ensures |c.message| == |VALIDATION_FAILED| + |message|
    ensures c.message[..|VALIDATION_FAILED|] == VALIDATION_FAILED && c.message[|VALIDATION_FAILED|..] == message
  {
    Custom(UnexpectedError, VALIDATION_FAILED + message)
  }

  /** `handle_user_creation`: the user built for a first Google login. */
  function NewUser(email: string, friendlyToken: string, now: nat): (u: User)
    ensures u.email == email && u.uid == email && u.provider == PROVIDER
    ensures u.confirmedAt == Some(now) && u.tokens == map[]
    ensures |u.password| <= PASSWORD_LENGTH && u.password <= friendlyToken
  {
    var password := if |friendlyToken| <= PASSWORD_LENGTH then friendlyToken else friendlyToken[..PASSWORD_LENGTH];
    User(email, email, PROVIDER, password, Some(now), map[])
  }

  /** `user.tokens[client_id] = {token:, expiry:}`. */
  function WithToken(user: User, clientId: string, record: TokenRecord): (u: User)
    ensures u.tokens.Keys == user.tokens.Keys + {clientId} && u.tokens[clientId] == record
    ensures forall c :: c in user.tokens && c != clientId ==> u.tokens[c] == user.tokens[c]
    ensures u.(tokens := user.tokens) == user
  {
    user.(tokens := user.tokens[clientId := record])
  }

  /** The headers `generate_devise_token` returns: the raw token (never its
      hash), Bearer, the client id, the expiry as a decimal numeral that reads
      back as the expiry, the user's uid, and the Bearer authorization built
      from the encoding of those five. */
  function BuildAuthHeaders(user: User, clientId: string, rawToken: string, expiry: nat, session: Session): (h: AuthHeaders)
    ensures h.data.accessToken == rawToken && h.data.tokenType == TOKEN_TYPE
    ensures h.data.client == clientId && h.data.uid == user.uid
    ensures |h.data.expiry| >= 1 && forall i :: 0 <= i < |h.data.expiry| ==> IsDigit(h.data.expiry[i])
    ensures DigitsValue(h.data.expiry) == expiry
    ensures h.authorization == TOKEN_TYPE + " " + session.encodeAuth(h.data)
  {
    DecimalRoundTrip(expiry);
    var data := AuthData(rawToken, TOKEN_TYPE, clientId, Decimal(expiry), user.uid);
    AuthHeaders(data, TOKEN_TYPE + " " + session.encodeAuth(data))
  }

  /** `process_google_payload`: find or create, then the token, as one
      transaction. */
  function Process(payload: GooglePayload, rows: map<string, User>, validate: User -> Option<string>,
                   session: Session, now: nat, draws: SessionDraws): (r: Processed)
    ensures r.authHeaders.Some? <==> r.failure.None?
    ensures r.failure.Some? ==> r.rows == rows
  {
    var found := FindByEmail(rows, payload.email);
    var user := if found.Some? then found.value else NewUser(payload.email, draws.friendlyToken, now);
    var createError := if found.Some? then None else validate(user);
    if createError.Some? then Processed(Some(SaveFailed(createError.value)), rows, None)
    else
      var expiry := now + session.tokenLifespan;
      var updated := WithToken(user, draws.clientId, TokenRecord(session.hashToken(draws.rawToken), expiry));
      var updateError := validate(updated);
      if updateError.Some? then Processed(Some(SaveFailed(updateError.value)), rows, None)
      else Processed(None, rows[updated.email := updated], Some(BuildAuthHeaders(updated, draws.clientId, draws.rawToken, expiry, session)))
  }

  /** A user already stored under the payload's email is reused: on success no
      user is added and only that user's token map changes. */
  lemma ProcessReusesExistingUser(payload: GooglePayload, rows: map<string, User>, validate: User -> Option<string>,
                                  session: Session, now: nat, draws: SessionDraws)
    requires WellKeyed(rows) && payload.email in rows
    requires Process(payload, rows, validate, session, now, draws).failure.None?
    ensures var r := Process(payload, rows, validate, session, now, draws);
      && r.rows.Keys == rows.Keys
      && r.rows[payload.email].(tokens := rows[payload.email].tokens) == rows[payload.email]
  {
  }

  /** With no user under the payload's email, a successful run adds exactly one
      user: email and uid are the payload's email, the provider is google, it
      is confirmed at `now`, and its password is at most 20 characters of the
      friendly token. */
  lemma ProcessCreatesUser(payload: GooglePayload, rows: map<string, User>, validate: User -> Option<string>,
                           session: Session, now: nat, draws: SessionDraws)
    requires payload.email !in rows
    requires Process(payload, rows, validate, session, now, draws).failure.None?
    ensures var r := Process(payload, rows, validate, session, now, draws);
      var u := r.rows[payload.email];
      && r.rows.Keys == rows.Keys + {payload.email}
      && u.email == payload.email && u.uid == payload.email && u.provider == PROVIDER
      && u.confirmedAt == Some(now)
      && |u.password| <= PASSWORD_LENGTH && u.password <= draws.friendlyToken
  {
  }

  /** On success the user's token map gains the entry for the new client id,
      holding the hash of the raw token and the expiry `now + token_lifespan`;
      every other client entry, and every other user, is unchanged. */
  lemma ProcessWritesOneToken(payload: GooglePayload, rows: map<string, User>, validate: User -> Option<string>,
                              session: Session, now: nat, draws: SessionDraws)
    requires WellKeyed(rows)
    requires Process(payload, rows, validate, session, now, draws).failure.None?
    ensures var r := Process(payload, rows, validate, session, now, draws);
      var before := if payload.email in rows then rows[payload.email].tokens else map[];
      var after := r.rows[payload.email].tokens;
      && after.Keys == before.Keys + {draws.clientId}
      && after[draws.clientId] == TokenRecord(session.hashToken(draws.rawToken), now + session.tokenLifespan)
      && (forall c :: c in before && c != draws.clientId ==> after[c] == before[c])
      && (forall e :: e in rows && e != payload.email ==> e in r.rows && r.rows[e] == rows[e])
  {
  }

  /** The headers of a successful run: `access-token` is the raw token (the
      table holds only its hash), `token-type` is Bearer, `client` is the new
      client id, `uid` is the user's uid, `expiry` is the stored expiry written
      in decimal (it reads back as that number), and `authorization` is
      "Bearer " followed by the encoding of the five headers. */
  lemma ProcessHeaders(payload: GooglePayload, rows: map<string, User>, validate: User -> Option<string>,
                       session: Session, now: nat, draws: SessionDraws)
    requires WellKeyed(rows)
    requires Process(payload, rows, validate, session, now, draws).failure.None?
    ensures var r := Process(payload, rows, validate, session, now, draws);
      var h := r.authHeaders.value;
      var stored := r.rows[payload.email].tokens[draws.clientId];
      && h.data.accessToken == draws.rawToken && stored.token == session.hashToken(draws.rawToken)
      && h.data.tokenType == "Bearer"
      && h.data.client == draws.clientId
      && h.data.uid == r.rows[payload.email].uid
      && DigitsValue(h.data.expiry) == stored.expiry == now + session.tokenLifespan
      && h.authorization == "Bearer " + session.encodeAuth(h.data)
  {
  }

  /** The transaction is all or nothing: the run fails exactly when a `save!`
      raises (for a new user, or for the token write), and then the table is
      as it was and no headers are produced. */
  lemma ProcessAtomic(payload: GooglePayload, rows: map<string, User>, validate: User -> Option<string>,
                      session: Session, now: nat, draws: SessionDraws)
    ensures var r := Process(payload, rows, validate, session, now, draws);
      var user := if payload.email in rows then rows[payload.email] else NewUser(payload.email, draws.friendlyToken, now);
      var updated := WithToken(user, draws.clientId, TokenRecord(session.hashToken(draws.rawToken), now + session.tokenLifespan));
      && (r.failure.Some? <==> (payload.email !in rows && validate(user).Some?) || validate(updated).Some?)
      && (r.failure.Some? ==> r.rows == rows && r.authHeaders.None?)
  {
  }

  /** Every user stays stored under its own email. */
  lemma ProcessKeepsWellKeyed(payload: GooglePayload, rows: map<string, User>, validate: User -> Option<string>,
                              session: Session, now: nat, draws: SessionDraws)
    requires WellKeyed(rows)
    ensures WellKeyed(Process(payload, rows, validate, session, now, draws).rows)
  {
  }

  /** The users table, with the validations that decide whether `save!`
      succeeds (None) or raises (the validation message). */
  class UserTable {
    var rows: map<string, User>
    const validate: User -> Option<string>

    constructor (rows: map<string, User>, validate: User -> Option<string>)
      ensures this.rows == rows && this.validate == validate
    {
      this.rows := rows;
      this.validate := validate;
    }

    /** `save!`: stores the user under its email, or raises and stores nothing. */
    method Save(user: User) returns (failure: Option<string>)
      modifies this`rows
      ensures failure == validate(user)
      ensures rows == if failure.None? then old(rows)[user.email := user] else old(rows)
    {
      failure := validate(user);
      if failure.None? {
        rows := rows[user.email := user];
      }
    }

    /** The rollback of an enclosing transaction: the table as it was when the
        transaction began. */
    method Rollback(snapshot: map<string, User>)
      modifies this`rows
      ensures rows == snapshot
    {
      rows := snapshot;
    }
  }

  class UserPayloadProcessor {
    const googlePayload: GooglePayload
    const users: UserTable
    const session: Session
    const status: ServiceState
    var authHeaders: Option<AuthHeaders>

    constructor (googlePayload: GooglePayload, users: UserTable, session: Session)
      ensures this.googlePayload == googlePayload && this.users == users && this.session == session
      ensures fresh(status) && status.reference == REFERENCE && status.valid == None && status.errors == None
      ensures authHeaders == None
    {
      this.googlePayload := googlePayload;
      this.users := users;
      this.session := session;
      status := new ServiceState(REFERENCE);
      authHeaders := None;
    }

    /** `find_or_create_user`, with `handle_user_creation`'s `save!`. */
    method FindOrCreateUser(now: nat, draws: SessionDraws) returns (user: User, failure: Option<string>)
      modifies users`rows
      ensures var found := FindByEmail(old(users.rows), googlePayload.email);
        && user == (if found.Some? then found.value else NewUser(googlePayload.email, draws.friendlyToken, now))
        && failure == (if found.Some? then None else users.validate(user))
        && users.rows == (if found.Some? || failure.Some? then old(users.rows) else old(users.rows)[user.email := user])
    {
      var found := FindByEmail(users.rows, googlePayload.email);
      if found.Some? {
        return found.value, None;
      }
      user := NewUser(googlePayload.email, draws.friendlyToken, now);
      failure := users.Save(user);
    }

    /** `generate_devise_token`: the token entry is written and saved, then the
        headers are built. */
    method GenerateDeviseToken(user: User, now: nat, draws: SessionDraws) returns (headers: AuthHeaders, failure: Option<string>)
      modifies users`rows
      ensures var expiry := now + session.tokenLifespan;
        var updated := WithToken(user, draws.clientId, TokenRecord(session.hashToken(draws.rawToken), expiry));
        && failure == users.validate(updated)
        && users.rows == (if failure.None? then old(users.rows)[updated.email := updated] else old(users.rows))
        && headers == BuildAuthHeaders(updated, draws.clientId, draws.rawToken, expiry, session)
    {
      var tokenHash := session.hashToken(draws.rawToken);
      var expiry := now + session.tokenLifespan;
      var updated := WithToken(user, draws.clientId, TokenRecord(tokenHash, expiry));
      failure := users.Save(updated);
      headers := BuildAuthHeaders(updated, draws.clientId, draws.rawToken, expiry, session);
    }

    /** `call`: one run of `Process`; a failed save rolls back every change to
        the table. */
    method Call(now: nat, draws: SessionDraws)
      modifies this, status, users`rows
      ensures var r := Process(googlePayload, old(users.rows), users.validate, session, now, draws);
        && users.rows == r.rows
        && authHeaders == (if r.authHeaders.Some? then r.authHeaders else old(authHeaders))
        && status.valid == Some(r.failure.None?)
        && status.errors == (if r.failure.Some? then Some(ServiceError(status.reference, r.failure.value.code, r.failure.value.message))
                             else old(status.errors))
    {
      ghost var r := Process(googlePayload, users.rows, users.validate, session, now, draws);
      var snapshot := users.rows;
      var user, failure := FindOrCreateUser(now, draws);
      if failure.None? {
        var headers;
        headers, failure := GenerateDeviseToken(user, now, draws);
        if failure.None? {
          assert r == Processed(None, users.rows, Some(headers));
          authHeaders := Some(headers);
        }
      }
      if failure.Some? {
        assert r == Processed(Some(SaveFailed(failure.value)), snapshot, None);
        users.Rollback(snapshot);
        status.Fail(SaveFailed(failure.value));
        return;
      }
      status.SetAsValid();
    }
  }
}
